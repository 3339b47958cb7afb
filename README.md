# Student performance enrichment, modelled in Dafny

The repository analyses a table of student exam results. Each row holds a
student's demographic columns and three integer scores (`math_score`,
`reading_score`, `writing_score`). Before any chart is drawn, the table is
enriched as follows:

- three columns are renamed: `race_ethnicity` becomes `group`,
  `parental_level_of_education` becomes `parent_education_level`, and
  `test_preparation_course` becomes `test_preparation`;
- the parent-education level is normalised, so `some high school` becomes
  `high school` and `some college` becomes `college`;
- `total_score` is added as the sum of the three scores;
- `average_score` is added as the total divided by three and rounded to
  two decimals;
- `result` is added from the average by `categorize_result`. Above 75 is
  Distinction, above 50 is Pass, and anything else is Fail.

The same enrichment appears twice. `DHV23027654.py` has it as the function
`process_data`, next to `categorize_result`. `DHS23027654.py` has it as
top-level statements that rebind and then update one global frame, with its
own copy of `categorize_result`.

The model has three modules:

- `Frames` (`frames.dfy`) holds the part of pandas both scripts rely on:
  - a frame of named columns and rows;
  - reading a column, which raises `KeyError` when the column is absent;
  - assigning a column;
  - `Series.replace`;
  - the `+` of two series;
  - `Series.apply`, where the first exception escapes.
- `Analysis` (`analysis.dfy`) models `categorize_result` and `process_data`:
  - `process_data` is a pipeline of column-wise stages, in the order the
    source writes them;
  - `EnrichRow` is an independent reference that states what happens to a
    single row;
  - lemmas connect the two and prove the classifier's bands, the
    normalisation, the arithmetic, the row-preservation and the
    idempotence properties.
- `Script` (`script.dfy`) models the top-level statements:
  - a `DataFrame` class whose fields the statements reassign;
  - a method per statement;
  - `Transform`, which runs them in the script's order, together with the
    `gender` column read at line 31. When the input has a `gender` column it
    is proved to end in the frame that `process_data` returns, or to raise
    the same error.

Cells hold exact values, so floating point never enters the model:

- `Int(n)` is an integer cell.
- `Hundredths(h)` is a float cell holding `h/100`. Every average the
  pipeline computes has exactly this form.
- `Nan` is a missing number.
- `Text(s)` is a string.

`round(total / 3, 2)` becomes the whole number of hundredths nearest to a
third of the total in hundredths, `(c + 1) / 3`. A third of a whole number
is never halfway between two hundredths, so the rounding rule for ties
never applies (`NearestThirdIsUnique`).

## Model

| member | source | states |
|---|---|---|
| Analysis.CategorizeResult | DHV23027654.py:47-56 | Text raises TypeError; NaN is Fail; a number is Distinction iff above 75.00, Pass iff in (50.00, 75.00], Fail iff at most 50.00 |
| Analysis.ClassifierBoundaries | DHV23027654.py:51-56 | the comparisons are strict: 75.00 is Pass, 75.01 Distinction, 50.00 Fail, 50.01 Pass |
| Analysis.CategorizeMonotone | DHV23027654.py:51-56 | on numbers the classifier never raises and never puts a higher score in a lower band |
| Analysis.Normalise | DHV23027654.py:70-73 | `some high school` maps to `high school`, `some college` maps to `college`, every other cell is unchanged |
| Analysis.NormaliseIdempotent | DHV23027654.py:70-73 | normalising an already normalised level changes nothing |
| Analysis.Total | DHV23027654.py:77 | the sum raises unless all three cells are text or none is; integer scores sum as integers; numbers sum exactly |
| Analysis.NearestThird | DHV23027654.py:80 | the result is within one third of a hundredth of total/3 |
| Analysis.NearestThirdIsUnique | DHV23027654.py:80 | every other hundredth lies strictly farther from total/3, so rounding has no tie to break |
| Analysis.Third | DHV23027654.py:80 | text raises TypeError; NaN stays NaN; a number becomes the hundredth nearest to a third of it |
| Analysis.ScoreBounds | DHV23027654.py:77-80 | scores in 0..100 give a total in 0..300 and an average in 0.00..100.00 |
| Analysis.RenameRow | DHV23027654.py:65-67 | a renamed row's labels are the renamed labels of the original |
| Analysis.RenameRowSpec | DHV23027654.py:65-67 | only the three listed labels change; every other label keeps its cell; each new label holds the old label's cell |
| Analysis.RenameRowMoves | DHV23027654.py:65-67 | each old label is gone, and its new label holds its cell or keeps its own when the old one was absent |
| Analysis.RenameRowFixes | DHV23027654.py:65-67 | a row holding none of the old labels is left as it is |
| Analysis.RenameLabelsFixes | DHV23027654.py:65-67 | renamed labels hold none of the old names, and labels without them are unchanged |
| Analysis.Rename | DHV23027654.py:65-67 | the rename builds a valid frame with the same number of rows, renaming each row in order |
| Analysis.NormaliseEducation | DHV23027654.py:70-73 | raises KeyError exactly when `parent_education_level` is missing; otherwise normalises that cell in every row and keeps everything else |
| Analysis.AddTotal | DHV23027654.py:77 | succeeds iff the three score columns exist and every row's sum is defined; a KeyError names a missing score column; otherwise every row gains `total_score` and nothing else changes |
| Analysis.AddAverage | DHV23027654.py:80 | succeeds iff `total_score` exists and holds no text; the error is KeyError or TypeError accordingly; otherwise every row gains its rounded third |
| Analysis.AddResult | DHV23027654.py:83 | succeeds iff `average_score` exists and holds no text; otherwise every row gains the band of its average, in order |
| Analysis.ProcessData | DHV23027654.py:59-84 | a successful run returns a valid frame with as many rows as the input and the renamed columns plus `total_score`, `average_score` and `result`; the needed columns were present |
| Analysis.FirstMissing | DHV23027654.py:70-77 | when a needed column is absent, names the first absent one in the order the source reads them: education, math, reading, writing |
| Analysis.Normalised | DHV23027654.py:65-73 | one row renamed and normalised keeps the renamed labels, and its education cell is the normalised renamed one |
| Analysis.NormalisedScores | DHV23027654.py:65-73 | renaming and normalising leave the three score cells as they were |
| Analysis.AddDerived | DHV23027654.py:77-83 | on one row the derived cells succeed iff no score is text, and exactly `total_score`, `average_score` and `result` are added |
| Analysis.EnrichRow | DHV23027654.py:59-84 | a single row is enriched iff the needed columns exist after renaming and no score is text; it gains the three derived labels and keeps every cell the rename does not touch |
| Analysis.EnrichRowCells | DHV23027654.py:65-83 | an enriched row holds the renamed row's cell under every label it does not assign (so `group` and `test_preparation` hold the old `race_ethnicity` and `test_preparation_course` cells); its education cell is normalised, its total is the sum of its scores, its average a third of the total, and its result the band of the average |
| Analysis.EnrichedScores | DHV23027654.py:77-83 | for integer scores: total == math+reading+writing, abs(3*average - 100*total) <= 1 in hundredths, result is the band of the average, and scores in 0..100 keep the average in 0.00..100.00 |
| Analysis.NormaliseStage | DHV23027654.py:65-73 | the frame-level rename and normalisation act as `Normalised` on every row |
| Analysis.DerivedStagesSucceed | DHV23027654.py:77-83 | the total and average stages on a frame succeed iff every row can take the derived cells |
| Analysis.DerivedRow | DHV23027654.py:77-83 | the three column assignments, applied to one row, are the derived-cells step |
| Analysis.DerivedStagesRows | DHV23027654.py:77-83 | when they succeed, the three column stages add the derived cells to every row, in order |
| Analysis.ProcessDataRows | DHV23027654.py:59-84 | process_data succeeds iff the needed columns exist and every row can be enriched; it keeps the row count and order and enriches row i exactly as EnrichRow does |
| Analysis.AddDerivedCells | DHV23027654.py:77-83 | deriving keeps every cell it does not assign and puts total, average and result in place |
| Analysis.AddDerivedIdempotent | DHV23027654.py:77-83 | deriving again from a row's own scores reproduces the same row |
| Analysis.EnrichRowIdempotent | DHV23027654.py:59-84 | enriching an enriched row gives it back unchanged |
| Analysis.ProcessDataFixes | DHV23027654.py:59-84 | a frame whose every row is its own enrichment is returned unchanged |
| Analysis.EnrichedRowsFixed | DHV23027654.py:59-84 | every row of process_data's output is its own enrichment |
| Analysis.EnrichedLabels | DHV23027654.py:65-84 | the output labels hold the needed columns, and renaming them again changes nothing |
| Analysis.ProcessDataIdempotent | DHV23027654.py:59-84 | running process_data on its own output changes nothing |
| Analysis.ExampleDistinction | DHV23027654.py:77-83 | a row with scores 90, 80, 70 gets total 240, average 80.00 and result Distinction |
| Analysis.ExampleFail | DHV23027654.py:77-83 | a row with scores 50, 50, 50 gets total 150, average 50.00 and result Fail |
| Frames.Column | DHV23027654.py:77 | reading a column raises KeyError iff it is absent; otherwise it lists the column's cells in row order |
| Frames.Assign | DHV23027654.py:77 | assigning a column adds or overwrites that one label in every row, in order |
| Frames.Replace | DHV23027654.py:70-73 | `Series.replace` changes exactly the cells equal to the old value, in order |
| Frames.Add | DHV23027654.py:77 | `+` on cells raises TypeError iff exactly one side is text; integers add as integers, numbers add exactly, NaN absorbs |
| Frames.Plus | DHV23027654.py:77 | `+` on series succeeds iff every pair of cells adds, giving the cell sums in order |
| Frames.Traverse | DHV23027654.py:83 | `apply` succeeds iff the function succeeds on every element; the results are in order; an error is that of the first element on which the function fails |
| Frames.TraverseAgree | DHS23027654.py:75 | two classifiers that agree on every cell give the same `apply`, errors included |
| Script.CategorizeResult | DHS23027654.py:67-73 | the script's copy of the classifier agrees with the one in DHV23027654.py on every cell |
| Script.DataFrame.constructor | DHS23027654.py:12 | the global frame starts as the table that was read |
| Script.DataFrame.Rename | DHS23027654.py:17-19 | the rename yields a fresh frame whose rows are the renamed rows, in order; the old frame is untouched |
| Script.DataFrame.ReplaceValues | DHS23027654.py:22-23 | raises KeyError and changes nothing when the column is missing; otherwise replaces the matching cells of that column in place |
| Script.DataFrame.AssignTotal | DHS23027654.py:26 | the frame after the statement is what the total stage computes, or the statement raises that stage's error and leaves the frame unchanged |
| Script.DataFrame.AssignAverage | DHS23027654.py:27 | the frame after the statement is what the average stage computes, or the statement raises that stage's error and leaves the frame unchanged |
| Script.DataFrame.AssignResult | DHS23027654.py:75 | with the script's own classifier, the frame after the statement is what the result stage computes, or the statement raises that stage's error and changes nothing |
| Script.Transform | DHS23027654.py:17-75 | the statements complete iff process_data succeeds and the input has a `gender` column (line 31), ending in the frame process_data returns; with a `gender` column they raise exactly what process_data raises, and without one they raise that or the KeyError of line 31 |

## Left out

- `download_data` is not modelled. It is network I/O with an unbounded retry loop, followed by writing and re-reading a CSV file.
- Reading the CSV is not modelled: `pd.read_csv` and the file it reads become the frame given to the constructor or to `ProcessData`.
- `describe`, `info` and `print` only display the frame, so they are not modelled.
- In DHS23027654.py the statements between lines 27 and 75 are modelled only by the `gender` read of line 31, the one that can fail on a frame the enrichment accepted. The others read `parent_education_level`, `average_score` and the three scores, which exist by then, or only draw.
- The charts are not modelled: the pie chart, the bar and stacked-bar charts, the 3D scatter plot, the heatmap and the histograms. Neither are the float aggregates behind them (`groupby(...).mean()`, `size().unstack()`, `corr()`), which only read the enriched frame.
- The bare `value_counts()` calls (DHV23027654.py:74, DHS23027654.py:24) are not modelled: their result is discarded.
- Scores are unbounded integers in the model, so int64 overflow of the total is not modelled.
- Float cells are exact multiples of 0.01 (`Hundredths`). The binary rounding error of such decimals, and input cells with more than two decimals, are not modelled.
- The rename with a label collision is not modelled faithfully. If a row holds both an old label and its new name (e.g. `race_ethnicity` and `group`), pandas keeps two columns with the same label. The model keeps one, holding the renamed cell.
- A NaN average is classified as Fail, as `categorize_result` does: both `>` comparisons are false for NaN, so NaN is not rejected as an error (`Analysis.CategorizeResult`).
- Analysis.EnrichRow: on a failing row its error can differ from the column-wise pipeline's, and `ProcessDataRows` relates the two only on success and on the Ok/Err split. EnrichRow checks every needed column before adding anything, while line 77 adds math and reading before it reads `writing_score`. With a text `math_score`, an integer `reading_score` and no `writing_score`, the pipeline raises TypeError and EnrichRow raises `KeyError("writing_score")`.
- Frames.Plus: types each cell on its own, whereas pandas decides by column dtype. On an object-dtype column pandas retries a failed `+` on the non-NaN pairs only, so text next to NaN gives NaN there and TypeError in the model; `process_data` still raises TypeError on such a frame, at the `round` of line 80. A column that holds NaN is float64 in pandas, so its integer cells, and a total built from them, are floats; the model keeps them as `Int`, with the same value.
- Comparing a text cell with a number raises `TypeError` in the model. pandas may instead raise while building the column; both are treated as the single error kind `TypeError`.
