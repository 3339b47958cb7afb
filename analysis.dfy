/** The record-enrichment step of DHV23027654.py: `categorize_result` and
    `process_data`. `process_data` works on whole columns, one statement after
    another; here each statement is a stage function on frames, and
    `EnrichRow` says independently what happens to one row, so that the
    lemmas can show that the column-wise pipeline is a map over rows. */
module Analysis {
  import opened Frames

  // Column labels before and after the rename.
  const RACE := "race_ethnicity"
  const GROUP := "group"
  const PARENTAL := "parental_level_of_education"
  const EDUCATION := "parent_education_level"
  const PREP_COURSE := "test_preparation_course"
  const PREP := "test_preparation"
  const MATH := "math_score"
  const READING := "reading_score"
  const WRITING := "writing_score"
  const TOTAL := "total_score"
  const AVERAGE := "average_score"
  const RESULT := "result"

  /** The labels the pipeline reads and writes are pairwise different. */
  lemma DistinctLabels()
    ensures RACE != GROUP && RACE != PARENTAL && RACE != EDUCATION && RACE != PREP_COURSE && RACE != PREP
    ensures GROUP != PARENTAL && GROUP != EDUCATION && GROUP != PREP_COURSE && GROUP != PREP
    ensures PARENTAL != EDUCATION && PARENTAL != PREP_COURSE && PARENTAL != PREP
    ensures EDUCATION != PREP_COURSE && EDUCATION != PREP && PREP_COURSE != PREP
    ensures forall k :: k in [MATH, READING, WRITING, TOTAL, AVERAGE, RESULT] ==> Untouched(k)
    ensures MATH != READING && MATH != WRITING && READING != WRITING
    ensures forall k :: k in [MATH, READING, WRITING, EDUCATION] ==> k != TOTAL && k != AVERAGE && k != RESULT
    ensures TOTAL != AVERAGE && TOTAL != RESULT && AVERAGE != RESULT
  {
    assert READING[0] != WRITING[0] && READING[0] != AVERAGE[0] && WRITING[0] != AVERAGE[0];
  }

  // Education levels that are merged.
  const SOME_HIGH_SCHOOL := "some high school"
  const HIGH_SCHOOL := "high school"
  const SOME_COLLEGE := "some college"
  const COLLEGE := "college"

  // The three result labels.
  const DISTINCTION := "Distinction"
  const PASS := "Pass"
  const FAIL := "Fail"

  // ---------------------------------------------------------------------
  // categorize_result

  /** `categorize_result(score)`: `score > 75` gives Distinction, otherwise
      `score > 50` gives Pass, otherwise Fail. NaN fails both comparisons;
      comparing text with a number raises. */
  function CategorizeResult(score: Value): (r: Result<Value>)
    ensures r.Err? <==> score.Text?
    ensures r.Err? ==> r.error == TypeError
    ensures score.Nan? ==> r == Ok(Text(FAIL))
    ensures score.IsNumber() ==> (r == Ok(Text(DISTINCTION)) <==> score.Cents() > 7500)
    ensures score.IsNumber() ==> (r == Ok(Text(PASS)) <==> 5000 < score.Cents() <= 7500)
    ensures score.IsNumber() ==> (r == Ok(Text(FAIL)) <==> score.Cents() <= 5000)
  {
    match score
    case Text(_) => Err(TypeError)
    case Nan => Ok(Text(FAIL))
    case Int(n) =>
      if n > 75 then Ok(Text(DISTINCTION))
      else if n > 50 then Ok(Text(PASS))
      else Ok(Text(FAIL))
    case Hundredths(h) =>
      if h > 7500 then Ok(Text(DISTINCTION))
      else if h > 5000 then Ok(Text(PASS))
      else Ok(Text(FAIL))
  }

  /** The order of the bands: Fail < Pass < Distinction. */
  function Rank(band: Value): nat {
    if band == Text(DISTINCTION) then 2
    else if band == Text(PASS) then 1
    else 0
  }

  /** The boundary cases: 75.00 is a Pass, 75.01 a Distinction, 50.00 a Fail, 50.01 a Pass. */
  lemma ClassifierBoundaries()
    ensures CategorizeResult(Hundredths(7500)) == Ok(Text(PASS))
    ensures CategorizeResult(Hundredths(7501)) == Ok(Text(DISTINCTION))
    ensures CategorizeResult(Hundredths(5000)) == Ok(Text(FAIL))
    ensures CategorizeResult(Hundredths(5001)) == Ok(Text(PASS))
  {
  }

  /** The classifier is total on numbers and never puts a higher score in a lower band. */
  lemma CategorizeMonotone(a: Value, b: Value)
    requires a.IsNumber() && b.IsNumber() && a.Cents() <= b.Cents()
    ensures CategorizeResult(a).Ok? && CategorizeResult(b).Ok?
    ensures Rank(CategorizeResult(a).value) <= Rank(CategorizeResult(b).value)
  {
  }

  // ---------------------------------------------------------------------
  // Cell-level pieces of process_data

  /** The two `replace` calls on one parent-education cell. */
  function Normalise(level: Value): (r: Value)
    ensures level == Text(SOME_HIGH_SCHOOL) ==> r == Text(HIGH_SCHOOL)
    ensures level == Text(SOME_COLLEGE) ==> r == Text(COLLEGE)
    ensures level != Text(SOME_HIGH_SCHOOL) && level != Text(SOME_COLLEGE) ==> r == level
  {
    ReplaceValue(ReplaceValue(level, SOME_HIGH_SCHOOL, HIGH_SCHOOL), SOME_COLLEGE, COLLEGE)
  }

  /** Normalising twice is normalising once. */
  lemma NormaliseIdempotent(level: Value)
    ensures Normalise(Normalise(level)) == Normalise(level)
  {
  }

  /** `math + reading + writing` on one row's cells, added left to right. */
  function Total(math: Value, reading: Value, writing: Value): (r: Result<Value>)
    ensures r.Ok? <==> math.Text? == reading.Text? == writing.Text?
    ensures r.Err? ==> r.error == TypeError
    ensures math.Int? && reading.Int? && writing.Int? ==>
              r == Ok(Int(math.n + reading.n + writing.n))
    ensures math.IsNumber() && reading.IsNumber() && writing.IsNumber() ==>
              r.Ok? && r.value.IsNumber() && r.value.Cents() == math.Cents() + reading.Cents() + writing.Cents()
    ensures r.Ok? ==> (r.value.Text? <==> math.Text?)
  {
    var partial :- Add(math, reading);
    Add(partial, writing)
  }

  /** The whole number of hundredths nearest to c/3. */
  function NearestThird(c: int): (h: int)
    ensures -1 <= 3 * h - c <= 1
  {
    (c + 1) / 3
  }

  /** c/3 is never halfway between two hundredths: every other candidate is
      strictly farther away, so the rounding rule for ties never applies. */
  lemma NearestThirdIsUnique(c: int, k: int)
    requires k != NearestThird(c)
    ensures 3 * k - c >= 2 || 3 * k - c <= -2
  {
  }

  /** `round(x / 3, 2)` on one cell. */
  function Third(x: Value): (r: Result<Value>)
    ensures r.Err? <==> x.Text?
    ensures r.Err? ==> r.error == TypeError
    ensures x.Nan? ==> r == Ok(Nan)
    ensures x.IsNumber() ==> r.Ok? && r.value.Hundredths? && -1 <= 3 * r.value.h - x.Cents() <= 1
  {
    match x
    case Text(_) => Err(TypeError)
    case Nan => Ok(Nan)
    case Int(n) => Ok(Hundredths(NearestThird(100 * n)))
    case Hundredths(h) => Ok(Hundredths(NearestThird(h)))
  }

  /** Scores between 0 and 100 give a total between 0 and 300 and an average
      between 0.00 and 100.00. */
  lemma ScoreBounds(math: int, reading: int, writing: int)
    requires 0 <= math <= 100 && 0 <= reading <= 100 && 0 <= writing <= 100
    ensures 0 <= math + reading + writing <= 300
    ensures 0 <= NearestThird(100 * (math + reading + writing)) <= 10000
  {
  }

  // ---------------------------------------------------------------------
  // The rename

  /** Moves the cell under `from` to `to`; nothing happens when `from` is absent. */
  function MoveEntry(r: Row, from: string, to: string): Row {
    if from in r then (r - {from})[to := r[from]] else r
  }

  function MoveLabel(labels: set<string>, from: string, to: string): set<string> {
    if from in labels then labels - {from} + {to} else labels
  }

  function RenameLabels(labels: set<string>): set<string> {
    MoveLabel(MoveLabel(MoveLabel(labels, RACE, GROUP), PARENTAL, EDUCATION), PREP_COURSE, PREP)
  }

  /** One row under `rename(columns = {...})`. */
  function RenameRow(r: Row): (s: Row)
    ensures s.Keys == RenameLabels(r.Keys)
  {
    MoveEntry(MoveEntry(MoveEntry(r, RACE, GROUP), PARENTAL, EDUCATION), PREP_COURSE, PREP)
  }

  /** A label the rename neither removes nor creates. */
  predicate Untouched(k: string) {
    k != RACE && k != GROUP && k != PARENTAL && k != EDUCATION && k != PREP_COURSE && k != PREP
  }

  /** After the rename, `to` holds what `from` held, or keeps its own cell when `from` was absent. */
  predicate Moved(r: Row, s: Row, from: string, to: string) {
    from !in s &&
    (to in s <==> from in r || to in r) &&
    (from in r ==> s[to] == r[from]) &&
    (from !in r && to in r ==> s[to] == r[to])
  }

  /** Only the three listed labels are renamed; every other label keeps its cell. */
  lemma RenameRowSpec(r: Row)
    ensures forall k :: Untouched(k) ==> (k in RenameRow(r) <==> k in r)
    ensures forall k :: Untouched(k) && k in r ==> RenameRow(r)[k] == r[k]
    ensures Moved(r, RenameRow(r), RACE, GROUP)
    ensures Moved(r, RenameRow(r), PARENTAL, EDUCATION)
    ensures Moved(r, RenameRow(r), PREP_COURSE, PREP)
  {
    RenameRowMoves(r);
  }

  /** Each of the three old labels is moved to its new one. */
  lemma RenameRowMoves(r: Row)
    ensures Moved(r, RenameRow(r), RACE, GROUP)
    ensures Moved(r, RenameRow(r), PARENTAL, EDUCATION)
    ensures Moved(r, RenameRow(r), PREP_COURSE, PREP)
  {
  }

  /** A row that holds none of the old labels is left as it is. */
  lemma RenameRowFixes(r: Row)
    requires RACE !in r && PARENTAL !in r && PREP_COURSE !in r
    ensures RenameRow(r) == r
  {
  }

  /** Labels that hold none of the old names are left as they are; the
      renamed labels hold none of them. */
  lemma RenameLabelsFixes(labels: set<string>)
    ensures RACE !in labels && PARENTAL !in labels && PREP_COURSE !in labels ==> RenameLabels(labels) == labels
    ensures RACE !in RenameLabels(labels) && PARENTAL !in RenameLabels(labels) && PREP_COURSE !in RenameLabels(labels)
  {
  }

  /** Lines 65-67: `df = df.rename(columns = {...})`, a new frame. */
  function Rename(f: Frame): (g: Frame)
    requires f.Valid()
    ensures g.Valid() && g.columns == RenameLabels(f.columns) && |g.rows| == |f.rows|
    ensures forall i :: 0 <= i < |f.rows| ==> g.rows[i] == RenameRow(f.rows[i])
  {
    Frame(RenameLabels(f.columns), seq(|f.rows|, i requires 0 <= i < |f.rows| => RenameRow(f.rows[i])))
  }

  // ---------------------------------------------------------------------
  // The column-wise stages of process_data

  /** The columns the pipeline reads, under their new names. */
  predicate HasScores(labels: set<string>) {
    MATH in labels && READING in labels && WRITING in labels
  }

  /** Lines 70-73: the two `replace` calls on parent_education_level. */
  function NormaliseEducation(df: Frame): (r: Result<Frame>)
    requires df.Valid()
    ensures r.Err? <==> EDUCATION !in df.columns
    ensures r.Err? ==> r.error == KeyError(EDUCATION)
    ensures r.Ok? ==> r.value.Valid() && r.value.columns == df.columns && |r.value.rows| == |df.rows|
    ensures r.Ok? ==> forall i :: 0 <= i < |df.rows| ==>
              r.value.rows[i] == df.rows[i][EDUCATION := Normalise(df.rows[i][EDUCATION])]
  {
    var level :- Column(df, EDUCATION);
    var df1 := Assign(df, EDUCATION, Replace(level, SOME_HIGH_SCHOOL, HIGH_SCHOOL));
    // the column was just assigned, so reading it again cannot fail
    var level1 := Column(df1, EDUCATION).value;
    Ok(Assign(df1, EDUCATION, Replace(level1, SOME_COLLEGE, COLLEGE)))
  }

  /** Line 77: `df['total_score'] = df['math_score'] + df['reading_score'] + df['writing_score']`. */
  function AddTotal(df: Frame): (r: Result<Frame>)
    requires df.Valid()
    ensures r.Ok? <==> HasScores(df.columns) && forall i :: 0 <= i < |df.rows| ==>
              Total(df.rows[i][MATH], df.rows[i][READING], df.rows[i][WRITING]).Ok?
    ensures r.Err? && r.error.KeyError? ==>
              r.error.column in [MATH, READING, WRITING] && r.error.column !in df.columns
    ensures r.Ok? ==> r.value.Valid() && r.value.columns == df.columns + {TOTAL} && |r.value.rows| == |df.rows|
    ensures r.Ok? ==> forall i :: 0 <= i < |df.rows| ==>
              Total(df.rows[i][MATH], df.rows[i][READING], df.rows[i][WRITING]).Ok? &&
              r.value.rows[i] == df.rows[i][TOTAL := Total(df.rows[i][MATH], df.rows[i][READING], df.rows[i][WRITING]).value]
  {
    var math :- Column(df, MATH);
    var reading :- Column(df, READING);
    var partial :- Plus(math, reading);
    var writing :- Column(df, WRITING);
    var total :- Plus(partial, writing);
    Ok(Assign(df, TOTAL, total))
  }

  /** Line 80: `df['average_score'] = round(df['total_score'] / 3, 2)`. */
  function AddAverage(df: Frame): (r: Result<Frame>)
    requires df.Valid()
    ensures r.Ok? <==> TOTAL in df.columns && forall i :: 0 <= i < |df.rows| ==> !df.rows[i][TOTAL].Text?
    ensures r.Err? ==> r.error == (if TOTAL in df.columns then TypeError else KeyError(TOTAL))
    ensures r.Ok? ==> r.value.Valid() && r.value.columns == df.columns + {AVERAGE} && |r.value.rows| == |df.rows|
    ensures r.Ok? ==> forall i :: 0 <= i < |df.rows| ==>
              r.value.rows[i] == df.rows[i][AVERAGE := Third(df.rows[i][TOTAL]).value]
  {
    var total :- Column(df, TOTAL);
    var average :- Traverse(total, Third);
    Ok(Assign(df, AVERAGE, average))
  }

  /** Line 83: `df['result'] = df['average_score'].apply(categorize_result)`. */
  function AddResult(df: Frame): (r: Result<Frame>)
    requires df.Valid()
    ensures r.Ok? <==> AVERAGE in df.columns && forall i :: 0 <= i < |df.rows| ==> !df.rows[i][AVERAGE].Text?
    ensures r.Err? ==> r.error == (if AVERAGE in df.columns then TypeError else KeyError(AVERAGE))
    ensures r.Ok? ==> r.value.Valid() && r.value.columns == df.columns + {RESULT} && |r.value.rows| == |df.rows|
    ensures r.Ok? ==> forall i :: 0 <= i < |df.rows| ==>
              r.value.rows[i] == df.rows[i][RESULT := CategorizeResult(df.rows[i][AVERAGE]).value]
  {
    var average :- Column(df, AVERAGE);
    var result :- Traverse(average, CategorizeResult);
    Ok(Assign(df, RESULT, result))
  }

  /** Lines 59-84: `process_data`. The caller's frame is not changed: the
      rename builds a new frame and the later statements change only that one. */
  function ProcessData(f: Frame): (r: Result<Frame>)
    requires f.Valid()
    ensures r.Ok? ==> r.value.Valid() && |r.value.rows| == |f.rows|
    ensures r.Ok? ==> Required(RenameLabels(f.columns))
    ensures r.Ok? ==> r.value.columns == RenameLabels(f.columns) + {TOTAL, AVERAGE, RESULT}
  {
    var renamed := Rename(f);
    var normalised :- NormaliseEducation(renamed);
    var totalled :- AddTotal(normalised);
    var averaged :- AddAverage(totalled);
    AddResult(averaged)
  }

  // ---------------------------------------------------------------------
  // process_data, one row at a time

  /** The columns process_data cannot do without, under their new names. */
  predicate Required(labels: set<string>) {
    EDUCATION in labels && HasScores(labels)
  }

  /** The first of the needed columns that `labels` lacks, in the order the source reads them. */
  function FirstMissing(labels: set<string>): (c: string)
    requires !Required(labels)
    ensures c in [EDUCATION, MATH, READING, WRITING] && c !in labels
    ensures EDUCATION !in labels ==> c == EDUCATION
    ensures EDUCATION in labels && MATH !in labels ==> c == MATH
    ensures EDUCATION in labels && MATH in labels && READING !in labels ==> c == READING
    ensures EDUCATION in labels && MATH in labels && READING in labels ==> c == WRITING
  {
    if EDUCATION !in labels then EDUCATION
    else if MATH !in labels then MATH
    else if READING !in labels then READING
    else WRITING
  }

  /** All three scores are present and none is text. */
  predicate NumericScores(r: Row) {
    MATH in r && READING in r && WRITING in r &&
    !r[MATH].Text? && !r[READING].Text? && !r[WRITING].Text?
  }

  /** A renamed row with its parent-education cell normalised (lines 65-73 on one row). */
  function Normalised(r: Row): (n: Row)
    requires EDUCATION in RenameLabels(r.Keys)
    ensures n.Keys == RenameLabels(r.Keys)
    ensures n[EDUCATION] == Normalise(RenameRow(r)[EDUCATION])
  {
    var renamed := RenameRow(r);
    renamed[EDUCATION := Normalise(renamed[EDUCATION])]
  }

  /** Renaming and normalising leave the three scores where they were. */
  lemma NormalisedScores(r: Row)
    requires EDUCATION in RenameLabels(r.Keys)
    ensures MATH in Normalised(r) <==> MATH in r
    ensures READING in Normalised(r) <==> READING in r
    ensures WRITING in Normalised(r) <==> WRITING in r
    ensures MATH in r ==> Normalised(r)[MATH] == r[MATH]
    ensures READING in r ==> Normalised(r)[READING] == r[READING]
    ensures WRITING in r ==> Normalised(r)[WRITING] == r[WRITING]
  {
    RenameRowSpec(r);
  }

  /** Lines 77-83 on one row that holds the three scores: total, average, result. */
  function AddDerived(row: Row): (e: Result<Row>)
    requires HasScores(row.Keys)
    ensures e.Ok? <==> NumericScores(row)
    ensures e.Err? ==> e.error == TypeError
    ensures e.Ok? ==> e.value.Keys == row.Keys + {TOTAL, AVERAGE, RESULT}
  {
    var total :- Total(row[MATH], row[READING], row[WRITING]);
    var average :- Third(total);
    // an average is never text, so classifying it cannot fail
    var result := CategorizeResult(average).value;
    Ok(row[TOTAL := total][AVERAGE := average][RESULT := result])
  }

  /** What process_data does to a single row, stated on its own. */
  function EnrichRow(r: Row): (e: Result<Row>)
    ensures e.Ok? <==> Required(RenameLabels(r.Keys)) && NumericScores(r)
    ensures e.Ok? ==> e.value.Keys == RenameLabels(r.Keys) + {TOTAL, AVERAGE, RESULT}
    ensures e.Ok? ==> forall k :: Untouched(k) && k in r && k !in {TOTAL, AVERAGE, RESULT} ==> e.value[k] == r[k]
  {
    DistinctLabels();
    RenameRowSpec(r);
    if !Required(RenameLabels(r.Keys)) then Err(KeyError(FirstMissing(RenameLabels(r.Keys))))
    else
      NormalisedScores(r);
      AddDerived(Normalised(r))
  }

  /** The cells of an enriched row, each in terms of the input row: the
      renamed cells, the normalised education level and the derived cells. */
  lemma EnrichRowCells(r: Row)
    requires EnrichRow(r).Ok?
    ensures forall k :: k in RenameRow(r) && k !in {EDUCATION, TOTAL, AVERAGE, RESULT} ==>
              EnrichRow(r).value[k] == RenameRow(r)[k]
    ensures EnrichRow(r).value[EDUCATION] == Normalise(RenameRow(r)[EDUCATION])
    ensures EnrichRow(r).value[TOTAL] == Total(r[MATH], r[READING], r[WRITING]).value
    ensures EnrichRow(r).value[AVERAGE] == Third(EnrichRow(r).value[TOTAL]).value
    ensures EnrichRow(r).value[RESULT] == CategorizeResult(EnrichRow(r).value[AVERAGE]).value
  {
    DistinctLabels();
    NormalisedScores(r);
    AddDerivedCells(Normalised(r));
  }

  /** For a row with integer scores: the total is their sum, the average is
      the hundredth nearest to a third of it, and the result is the band of
      the average; scores in 0..100 keep the average within 0.00..100.00. */
  lemma EnrichedScores(r: Row, math: int, reading: int, writing: int)
    requires PARENTAL in r || EDUCATION in r
    requires MATH in r && READING in r && WRITING in r
    requires r[MATH] == Int(math) && r[READING] == Int(reading) && r[WRITING] == Int(writing)
    ensures EnrichRow(r).Ok?
    ensures EnrichRow(r).value[TOTAL] == Int(math + reading + writing)
    ensures EnrichRow(r).value[AVERAGE].Hundredths?
    ensures -1 <= 3 * EnrichRow(r).value[AVERAGE].h - 100 * (math + reading + writing) <= 1
    ensures CategorizeResult(EnrichRow(r).value[AVERAGE]) == Ok(EnrichRow(r).value[RESULT])
    ensures EnrichRow(r).value[EDUCATION] == Normalise(if PARENTAL in r then r[PARENTAL] else r[EDUCATION])
    ensures 0 <= math <= 100 && 0 <= reading <= 100 && 0 <= writing <= 100 ==>
              0 <= EnrichRow(r).value[AVERAGE].h <= 10000
  {
    RenameRowMoves(r);
    assert EDUCATION in RenameLabels(r.Keys);
    EnrichRowCells(r);
    if 0 <= math <= 100 && 0 <= reading <= 100 && 0 <= writing <= 100 {
      ScoreBounds(math, reading, writing);
    }
  }

  /** Lines 65-73 on a frame act as Normalised on every row. */
  lemma NormaliseStage(f: Frame)
    requires f.Valid() && EDUCATION in RenameLabels(f.columns)
    ensures NormaliseEducation(Rename(f)).Ok?
    ensures NormaliseEducation(Rename(f)).value.columns == RenameLabels(f.columns)
    ensures |NormaliseEducation(Rename(f)).value.rows| == |f.rows|
    ensures forall i :: 0 <= i < |f.rows| ==> NormaliseEducation(Rename(f)).value.rows[i] == Normalised(f.rows[i])
  {
  }

  /** Lines 77-83 on a frame that holds the scores succeed exactly when AddDerived does on every row. */
  lemma DerivedStagesSucceed(g: Frame)
    requires g.Valid() && HasScores(g.columns)
    ensures AddTotal(g).Ok? && AddAverage(AddTotal(g).value).Ok? <==>
              forall i :: 0 <= i < |g.rows| ==> AddDerived(g.rows[i]).Ok?
  {
    DistinctLabels();
    if forall i :: 0 <= i < |g.rows| ==> AddDerived(g.rows[i]).Ok? {
      assert forall i :: 0 <= i < |g.rows| ==> NumericScores(g.rows[i]);
      var totalled := AddTotal(g).value;
      assert forall i :: 0 <= i < |g.rows| ==> !totalled.rows[i][TOTAL].Text?;
    } else {
      var i :| 0 <= i < |g.rows| && AddDerived(g.rows[i]).Err?;
      assert !NumericScores(g.rows[i]);
      if AddTotal(g).Ok? {
        assert AddTotal(g).value.rows[i][TOTAL].Text?;
      }
    }
  }

  /** The three assignments of lines 77-83 on one row are AddDerived. */
  lemma DerivedRow(row: Row, totalled: Row, averaged: Row, classified: Row)
    requires HasScores(row.Keys) && NumericScores(row)
    requires totalled == row[TOTAL := Total(row[MATH], row[READING], row[WRITING]).value]
    requires averaged == totalled[AVERAGE := Third(totalled[TOTAL]).value]
    requires !averaged[AVERAGE].Text?
    requires classified == averaged[RESULT := CategorizeResult(averaged[AVERAGE]).value]
    ensures AddDerived(row) == Ok(classified)
  {
  }

  /** When they succeed, lines 77-83 on a frame act as AddDerived on every row. */
  lemma DerivedStagesRows(g: Frame)
    requires g.Valid() && HasScores(g.columns)
    requires AddTotal(g).Ok? && AddAverage(AddTotal(g).value).Ok?
    ensures AddResult(AddAverage(AddTotal(g).value).value).Ok?
    ensures var h := AddResult(AddAverage(AddTotal(g).value).value).value;
              h.columns == g.columns + {TOTAL, AVERAGE, RESULT} && |h.rows| == |g.rows| &&
              forall i :: 0 <= i < |g.rows| ==> AddDerived(g.rows[i]) == Ok(h.rows[i])
  {
    DistinctLabels();
    var totalled := AddTotal(g).value;
    var averaged := AddAverage(totalled).value;
    forall i | 0 <= i < |g.rows|
      ensures NumericScores(g.rows[i]) && !averaged.rows[i][AVERAGE].Text?
    {
      assert !totalled.rows[i][TOTAL].Text?;
    }
    var h := AddResult(averaged).value;
    forall i | 0 <= i < |g.rows|
      ensures AddDerived(g.rows[i]) == Ok(h.rows[i])
    {
      DerivedRow(g.rows[i], totalled.rows[i], averaged.rows[i], h.rows[i]);
    }
  }

  /** process_data is a map over rows: it succeeds exactly when the needed
      columns exist and every row can be enriched, keeps the number and the
      order of the rows, and enriches each row as EnrichRow does. */
  lemma ProcessDataRows(f: Frame)
    requires f.Valid()
    ensures ProcessData(f).Ok? <==>
              Required(RenameLabels(f.columns)) && forall i :: 0 <= i < |f.rows| ==> EnrichRow(f.rows[i]).Ok?
    ensures ProcessData(f).Ok? ==>
              ProcessData(f).value.columns == RenameLabels(f.columns) + {TOTAL, AVERAGE, RESULT} &&
              |ProcessData(f).value.rows| == |f.rows| &&
              forall i :: 0 <= i < |f.rows| ==> EnrichRow(f.rows[i]) == Ok(ProcessData(f).value.rows[i])
  {
    DistinctLabels();
    var cols := RenameLabels(f.columns);
    if EDUCATION !in cols {
      return;
    }
    NormaliseStage(f);
    var g := NormaliseEducation(Rename(f)).value;
    if !HasScores(cols) {
      return;
    }
    DerivedStagesSucceed(g);
    if AddTotal(g).Ok? && AddAverage(AddTotal(g).value).Ok? {
      DerivedStagesRows(g);
    }
    forall i | 0 <= i < |f.rows|
      ensures EnrichRow(f.rows[i]) == AddDerived(g.rows[i])
    {
      assert f.rows[i].Keys == f.columns;
    }
  }

  /** AddDerived keeps every cell it does not assign and puts the derived ones in place. */
  lemma AddDerivedCells(row: Row)
    requires HasScores(row.Keys) && NumericScores(row)
    ensures AddDerived(row).Ok?
    ensures forall k :: k in row && k !in {TOTAL, AVERAGE, RESULT} ==> AddDerived(row).value[k] == row[k]
    ensures AddDerived(row).value[TOTAL] == Total(row[MATH], row[READING], row[WRITING]).value
    ensures AddDerived(row).value[AVERAGE] == Third(AddDerived(row).value[TOTAL]).value
    ensures AddDerived(row).value[RESULT] == CategorizeResult(AddDerived(row).value[AVERAGE]).value
  {
  }

  /** Deriving again from a row's own scores reproduces its derived cells. */
  lemma AddDerivedIdempotent(row: Row)
    requires HasScores(row.Keys) && NumericScores(row)
    ensures AddDerived(row).Ok? && AddDerived(AddDerived(row).value) == AddDerived(row)
  {
    AddDerivedCells(row);
    var e := AddDerived(row).value;
    AddDerivedCells(e);
    assert AddDerived(e).value == e;
  }

  /** Enriching a row that process_data has already enriched gives it back unchanged. */
  lemma EnrichRowIdempotent(r: Row)
    requires EnrichRow(r).Ok?
    ensures EnrichRow(EnrichRow(r).value) == EnrichRow(r)
  {
    DistinctLabels();
    NormalisedScores(r);
    var n := Normalised(r);
    assert EnrichRow(r) == AddDerived(n);
    AddDerivedIdempotent(n);
    AddDerivedCells(n);
    var e := AddDerived(n).value;
    RenameRowMoves(r);
    assert RACE !in e && PARENTAL !in e && PREP_COURSE !in e;
    RenameRowFixes(e);
    NormaliseIdempotent(RenameRow(r)[EDUCATION]);
    assert Normalised(e) == e;
  }

  /** A frame whose every row is its own enrichment is a fixed point of process_data. */
  lemma ProcessDataFixes(g: Frame)
    requires g.Valid() && Required(g.columns) && RenameLabels(g.columns) == g.columns
    requires TOTAL in g.columns && AVERAGE in g.columns && RESULT in g.columns
    requires forall i :: 0 <= i < |g.rows| ==> EnrichRow(g.rows[i]) == Ok(g.rows[i])
    ensures ProcessData(g) == Ok(g)
  {
    ProcessDataRows(g);
    var h := ProcessData(g).value;
    assert h.rows == g.rows;
    assert h.columns == g.columns;
  }

  /** Every row of process_data's output is its own enrichment. */
  lemma EnrichedRowsFixed(f: Frame)
    requires f.Valid() && ProcessData(f).Ok?
    ensures forall i :: 0 <= i < |ProcessData(f).value.rows| ==>
              EnrichRow(ProcessData(f).value.rows[i]) == Ok(ProcessData(f).value.rows[i])
  {
    var g := ProcessData(f).value;
    ProcessDataRows(f);
    forall i | 0 <= i < |g.rows|
      ensures EnrichRow(g.rows[i]) == Ok(g.rows[i])
    {
      EnrichRowIdempotent(f.rows[i]);
    }
  }

  /** The labels of process_data's output: the new names, the needed columns
      and the derived ones, none of which the rename would touch again. */
  lemma EnrichedLabels(labels: set<string>)
    requires Required(RenameLabels(labels))
    ensures var enriched := RenameLabels(labels) + {TOTAL, AVERAGE, RESULT};
              Required(enriched) && RenameLabels(enriched) == enriched
  {
    RenameLabelsFixes(labels);
    RenameLabelsFixes(RenameLabels(labels) + {TOTAL, AVERAGE, RESULT});
  }

  /** Running process_data on its own output changes nothing. */
  lemma ProcessDataIdempotent(f: Frame)
    requires f.Valid() && ProcessData(f).Ok?
    ensures ProcessData(ProcessData(f).value) == ProcessData(f)
  {
    EnrichedRowsFixed(f);
    EnrichedLabels(f.columns);
    ProcessDataFixes(ProcessData(f).value);
  }

  /** An example row: scores 90, 80, 70 give 240, 80.00 and Distinction. */
  lemma ExampleDistinction(r: Row)
    requires PARENTAL in r || EDUCATION in r
    requires MATH in r && READING in r && WRITING in r
    requires r[MATH] == Int(90) && r[READING] == Int(80) && r[WRITING] == Int(70)
    ensures EnrichRow(r).Ok?
    ensures EnrichRow(r).value[TOTAL] == Int(240)
    ensures EnrichRow(r).value[AVERAGE] == Hundredths(8000)
    ensures EnrichRow(r).value[RESULT] == Text(DISTINCTION)
  {
    EnrichedScores(r, 90, 80, 70);
    var e := EnrichRow(r).value;
    assert e[AVERAGE] == Hundredths(8000);
  }

  /** An example row: scores 50, 50, 50 give 150, 50.00 and Fail, since
      50.00 is not above 50. */
  lemma ExampleFail(r: Row)
    requires PARENTAL in r || EDUCATION in r
    requires MATH in r && READING in r && WRITING in r
    requires r[MATH] == Int(50) && r[READING] == Int(50) && r[WRITING] == Int(50)
    ensures EnrichRow(r).Ok?
    ensures EnrichRow(r).value[TOTAL] == Int(150)
    ensures EnrichRow(r).value[AVERAGE] == Hundredths(5000)
    ensures EnrichRow(r).value[RESULT] == Text(FAIL)
  {
    EnrichedScores(r, 50, 50, 50);
    var e := EnrichRow(r).value;
    assert e[AVERAGE] == Hundredths(5000);
  }
}
