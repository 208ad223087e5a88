/** Column validation of an uploaded workout export (src/data/validator.py). */
module Validator {

  /** The columns every workout export must have. */
  const RequiredColumns: set<string> :=
    {"Date", "Exercise", "Reps", "Weight(kg)", "Duration(s)",
     "Distance(m)", "Incline", "Resistance", "isWarmup", "Note", "multiplier"}

  /** What `validate_data_structure` may be handed: a data frame (only its
      column names matter), a list or tuple of rows, or any other value. */
  datatype Data = Frame(columns: seq<string>) | Rows(rows: seq<seq<string>>) | Other

  /** `validate_data_structure(data, is_dataframe)`: the validity flag and the
      set of missing required columns. In data-frame mode the columns are read
      from the frame (a non-frame there is an attribute error in the source);
      otherwise a non-empty list's first row is the header row, and anything
      else is invalid with every required column missing. */
  function ValidateDataStructure(data: Data, isDataframe: bool): (r: (bool, set<string>))
    requires isDataframe ==> data.Frame?
    ensures isDataframe ==> r.1 == RequiredColumns - set c | c in data.columns
    ensures !isDataframe && data.Rows? && |data.rows| > 0 ==>
      r.1 == RequiredColumns - set c | c in data.rows[0]
    ensures !isDataframe && !(data.Rows? && |data.rows| > 0) ==> r == (false, RequiredColumns)
    ensures r.0 <==> r.1 == {}
    ensures r.1 <= RequiredColumns
  {
    if isDataframe then
      var missing := RequiredColumns - set c | c in data.columns;
      (|missing| == 0, missing)
    else if data.Rows? && |data.rows| > 0 then
      var headers := set c | c in data.rows[0];
      var missing := RequiredColumns - headers;
      (|missing| == 0, missing)
    else
      (false, RequiredColumns)
  }

  /** There are exactly eleven required columns. The count is built up in
      three steps, each adding names that differ from all earlier ones. */
  lemma RequiredColumnCount()
    ensures |RequiredColumns| == 11
  {
    FirstEightDistinct();
    assert "isWarmup" !in {"Date", "Exercise", "Reps", "Weight(kg)", "Duration(s)", "Distance(m)", "Incline", "Resistance"};
    assert "Note" !in {"Date", "Exercise", "Reps", "Weight(kg)", "Duration(s)", "Distance(m)", "Incline", "Resistance", "isWarmup"};
    assert "multiplier" !in {"Date", "Exercise", "Reps", "Weight(kg)", "Duration(s)", "Distance(m)", "Incline", "Resistance", "isWarmup", "Note"};
  }

  lemma FirstEightDistinct()
    ensures |{"Date", "Exercise", "Reps", "Weight(kg)", "Duration(s)", "Distance(m)", "Incline", "Resistance"}| == 8
  {
    FirstFourDistinct();
    assert "Duration(s)" !in {"Date", "Exercise", "Reps", "Weight(kg)"};
    assert "Distance(m)" !in {"Date", "Exercise", "Reps", "Weight(kg)", "Duration(s)"};
    assert "Incline" !in {"Date", "Exercise", "Reps", "Weight(kg)", "Duration(s)", "Distance(m)"};
    assert "Resistance" !in {"Date", "Exercise", "Reps", "Weight(kg)", "Duration(s)", "Distance(m)", "Incline"};
  }

  lemma FirstFourDistinct()
    ensures |{"Date", "Exercise", "Reps", "Weight(kg)"}| == 4
  {
    assert "Date" !in {};
    assert "Exercise" !in {"Date"};
    assert "Reps" !in {"Date", "Exercise"};
    assert "Weight(kg)" !in {"Date", "Exercise", "Reps"};
  }

  /** Valid exactly when every required column is present. */
  lemma {:induction false} ValidIffAllPresent(columns: seq<string>)
    ensures ValidateDataStructure(Frame(columns), true).0 <==> forall c :: c in RequiredColumns ==> c in columns
  {
    var r := ValidateDataStructure(Frame(columns), true);
    if r.0 {
      forall c | c in RequiredColumns ensures c in columns {
        assert c !in r.1;
      }
    }
  }

  /** Adding columns never makes a valid frame invalid. */
  lemma {:induction false} ValidityMonotone(columns: seq<string>, extra: seq<string>)
    requires ValidateDataStructure(Frame(columns), true).0
    ensures ValidateDataStructure(Frame(columns + extra), true).0
  {
    ValidIffAllPresent(columns);
    ValidIffAllPresent(columns + extra);
  }

  /** In list mode only the first row is read: the rows after it never change the verdict. */
  lemma ListModeReadsFirstRowOnly(header: seq<string>, rest: seq<seq<string>>, rest': seq<seq<string>>)
    ensures ValidateDataStructure(Rows([header] + rest), false) == ValidateDataStructure(Rows([header] + rest'), false)
  {
  }

  /** Both modes agree when a frame's columns are the first row of a list. */
  lemma ModesAgree(columns: seq<string>, rest: seq<seq<string>>)
    ensures ValidateDataStructure(Frame(columns), true) == ValidateDataStructure(Rows([columns] + rest), false)
  {
  }
}
