/** The enrichment in DHS23027654.py: the same steps as `process_data`, but
    written as top-level statements that rebind and then change one frame,
    with a local copy of `categorize_result`. The methods below are those
    statements; `Transform` runs them in the script's order and ends in the
    frame that `Analysis.ProcessData` computes. */
module Script {
  import opened Frames
  import Analysis

  /** Lines 67-73: the script's own `categorize_result`. It agrees with the
      one in DHV23027654.py on every cell. */
  function CategorizeResult(score: Value): (r: Result<Value>)
    ensures r == Analysis.CategorizeResult(score)
  {
    match score
    case Text(_) => Err(TypeError)
    case Nan => Ok(Text("Fail"))
    case Int(n) =>
      if n > 75 then Ok(Text("Distinction"))
      else if n > 50 then Ok(Text("Pass"))
      else Ok(Text("Fail"))
    case Hundredths(h) =>
      if h > 7500 then Ok(Text("Distinction"))
      else if h > 5000 then Ok(Text("Pass"))
      else Ok(Text("Fail"))
  }

  /** How a statement of the script ends: normally, or by raising. */
  datatype Outcome = Completed | Raised(error: Error)

  /** The script's global `df`: its column labels and its rows, which the
      statements reassign. */
  class DataFrame {
    var columns: set<string>
    var rows: seq<Row>

    predicate Valid()
      reads this
    {
      Value().Valid()
    }

    /** The frame this object holds. */
    function Value(): Frame
      reads this
    {
      Frame(columns, rows)
    }

    /** The frame `pd.read_csv` returns at line 12; reading the file is not modelled. */
    constructor (f: Frame)
      requires f.Valid()
      ensures Value() == f
    {
      columns := f.columns;
      rows := f.rows;
    }

    /** Lines 17-19: `df = df.rename(columns = {...})` builds a new frame and
        leaves this one as it was. */
    method Rename() returns (renamed: DataFrame)
      requires Valid()
      ensures fresh(renamed) && renamed.Valid()
      ensures renamed.columns == Analysis.RenameLabels(columns) && |renamed.rows| == |rows|
      ensures forall i :: 0 <= i < |rows| ==> renamed.rows[i] == Analysis.RenameRow(rows[i])
    {
      renamed := new DataFrame(Analysis.Rename(Value()));
    }

    /** Lines 22 and 23: `df[name] = df[name].replace(from, to)`. */
    method ReplaceValues(name: string, from: string, to: string) returns (outcome: Outcome)
      requires Valid()
      modifies this
      ensures Valid()
      ensures outcome == (if name in old(columns) then Completed else Raised(KeyError(name)))
      ensures outcome.Raised? ==> columns == old(columns) && rows == old(rows)
      ensures outcome.Completed? ==> columns == old(columns) && |rows| == |old(rows)|
      ensures outcome.Completed? ==> forall i :: 0 <= i < |rows| ==>
                rows[i] == old(rows[i])[name := ReplaceValue(old(rows[i])[name], from, to)]
    {
      var column := Column(Value(), name);
      if column.Err? {
        return Raised(column.error);
      }
      var replaced := Assign(Value(), name, Replace(column.value, from, to));
      columns, rows := replaced.columns, replaced.rows;
      outcome := Completed;
    }

    /** Line 26: `df['total_score'] = df['math_score'] + df['reading_score'] + df['writing_score']`. */
    method AssignTotal() returns (outcome: Outcome)
      requires Valid()
      modifies this
      ensures Valid()
      ensures outcome.Raised? ==> columns == old(columns) && rows == old(rows)
      ensures outcome.Raised? ==> Analysis.AddTotal(old(Value())) == Err(outcome.error)
      ensures outcome.Completed? ==> Analysis.AddTotal(old(Value())) == Ok(Value())
    {
      var df := Value();
      var math := Column(df, Analysis.MATH);
      if math.Err? {
        return Raised(math.error);
      }
      var reading := Column(df, Analysis.READING);
      if reading.Err? {
        return Raised(reading.error);
      }
      var partial := Plus(math.value, reading.value);
      if partial.Err? {
        return Raised(partial.error);
      }
      var writing := Column(df, Analysis.WRITING);
      if writing.Err? {
        return Raised(writing.error);
      }
      var total := Plus(partial.value, writing.value);
      if total.Err? {
        return Raised(total.error);
      }
      var updated := Assign(df, Analysis.TOTAL, total.value);
      columns, rows := updated.columns, updated.rows;
      outcome := Completed;
    }

    /** Line 27: `df['average_score'] = round(df['total_score'] / 3, 2)`. */
    method AssignAverage() returns (outcome: Outcome)
      requires Valid()
      modifies this
      ensures Valid()
      ensures outcome.Raised? ==> columns == old(columns) && rows == old(rows)
      ensures outcome.Raised? ==> Analysis.AddAverage(old(Value())) == Err(outcome.error)
      ensures outcome.Completed? ==> Analysis.AddAverage(old(Value())) == Ok(Value())
    {
      var df := Value();
      var total := Column(df, Analysis.TOTAL);
      if total.Err? {
        return Raised(total.error);
      }
      var average := Traverse(total.value, Analysis.Third);
      if average.Err? {
        return Raised(average.error);
      }
      var updated := Assign(df, Analysis.AVERAGE, average.value);
      columns, rows := updated.columns, updated.rows;
      outcome := Completed;
    }

    /** Line 75: `df['result'] = df['average_score'].apply(categorize_result)`,
        with the script's own classifier. */
    method AssignResult() returns (outcome: Outcome)
      requires Valid()
      modifies this
      ensures Valid()
      ensures outcome.Raised? ==> columns == old(columns) && rows == old(rows)
      ensures outcome.Raised? ==> Analysis.AddResult(old(Value())) == Err(outcome.error)
      ensures outcome.Completed? ==> Analysis.AddResult(old(Value())) == Ok(Value())
    {
      var df := Value();
      var average := Column(df, Analysis.AVERAGE);
      if average.Err? {
        return Raised(average.error);
      }
      var result := Traverse(average.value, CategorizeResult);
      TraverseAgree(average.value, CategorizeResult, Analysis.CategorizeResult);
      if result.Err? {
        return Raised(result.error);
      }
      var updated := Assign(df, Analysis.RESULT, result.value);
      columns, rows := updated.columns, updated.rows;
      outcome := Completed;
    }
  }

  /** The column line 31 counts. */
  const GENDER := "gender"

  /** Lines 17-27, 31 and 75 in the script's order, starting from the frame
      that was read. Of the statements between lines 27 and 75 only line 31
      can fail: it reads the `gender` column, which the enrichment neither
      renames nor creates; the others read columns that exist by then, or
      only draw. When the input has a `gender` column the script ends in the
      frame process_data returns, or raises what process_data raises;
      without one it can also stop at line 31 with a KeyError. The frame
      that was read is left unchanged. */
  method Transform(input: DataFrame) returns (df: DataFrame, outcome: Outcome)
    requires input.Valid()
    ensures fresh(df) && df.Valid()
    ensures outcome.Completed? <==> Analysis.ProcessData(input.Value()).Ok? && GENDER in input.columns
    ensures outcome.Completed? ==> Analysis.ProcessData(input.Value()) == Ok(df.Value())
    ensures outcome.Raised? && GENDER in input.columns ==>
              Analysis.ProcessData(input.Value()) == Err(outcome.error)
    ensures outcome.Raised? && GENDER !in input.columns ==>
              Analysis.ProcessData(input.Value()) == Err(outcome.error) || outcome.error == KeyError(GENDER)
  {
    df := input.Rename();
    ghost var renamed := df.Value();
    assert renamed == Analysis.Rename(input.Value());
    assert GENDER in renamed.columns <==> GENDER in input.columns;
    outcome := df.ReplaceValues(Analysis.EDUCATION, Analysis.SOME_HIGH_SCHOOL, Analysis.HIGH_SCHOOL);
    if outcome.Raised? {
      return;
    }
    outcome := df.ReplaceValues(Analysis.EDUCATION, Analysis.SOME_COLLEGE, Analysis.COLLEGE);
    ghost var normalised := Analysis.NormaliseEducation(renamed).value;
    forall i | 0 <= i < |df.rows|
      ensures df.rows[i] == normalised.rows[i]
    {
      var level := renamed.rows[i][Analysis.EDUCATION];
      assert df.rows[i] == renamed.rows[i][Analysis.EDUCATION := Analysis.Normalise(level)];
    }
    assert normalised == df.Value();
    outcome := df.AssignTotal();
    if outcome.Raised? {
      return;
    }
    outcome := df.AssignAverage();
    if outcome.Raised? {
      return;
    }
    assert GENDER in df.columns <==> GENDER in input.columns;
    var gender := Column(df.Value(), GENDER);
    if gender.Err? {
      outcome := Raised(gender.error);
      return;
    }
    outcome := df.AssignResult();
  }
}
