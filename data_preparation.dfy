/**
 * The offline dataset preparation: check that the required columns are present,
 * keep the children aged 5 to 17, and project to the columns the model is trained on.
 * Reading and writing the CSV files is outside the model; a table stands for the frame.
 */
module DataPreparation {
  import opened Wrappers
  import opened Frames

  /** The columns the raw dataset must have. */
  const RequiredColumns: seq<string> :=
    ["Age", "Gender", "Height_cm", "Weight_kg", "BMI", "Activity_Level", "Daily_Calories", "Calorie_Level"]

  /** The columns of the processed dataset, in order. */
  const OutputColumns: seq<string> :=
    ["Age", "Gender", "Height_cm", "Weight_kg", "BMI", "Activity_Level", "Calorie_Level"]

  /** A row of the frame, cell by column name. */
  type Row = map<string, Cell>

  /** A frame: its ordered column labels and its rows. */
  datatype Table = Table(columns: seq<string>, rows: seq<Row>)

  /** Why preparation stops: the ValueError for missing columns, or the TypeError of comparing a text Age with a number. */
  datatype PrepError = MissingRequiredColumns(missing: set<string>) | AgeNotComparable

  /** Every row has a cell for exactly the frame's columns. */
  predicate WellFormed(t: Table)
  {
    forall i :: 0 <= i < |t.rows| ==> t.rows[i].Keys == set c | c in t.columns
  }

  /** `set(required_columns) - set(df.columns)`. */
  function MissingColumns(columns: seq<string>): (missing: set<string>)
    ensures missing <= set c | c in RequiredColumns
    ensures forall c :: c in missing ==> c !in columns
    ensures forall c :: c in RequiredColumns && c !in columns ==> c in missing
    ensures missing == {} <==> forall c :: c in RequiredColumns ==> c in columns
  {
    var missing := (set c | c in RequiredColumns) - (set c | c in columns);
    assert forall c :: c in RequiredColumns && c !in columns ==> c in missing;
    missing
  }

  /** The Age cell is text, so `df["Age"] >= 5` raises. */
  predicate AgeIsText(row: Row)
  {
    "Age" in row && row["Age"].StrVal?
  }

  /** The boolean mask `(df["Age"] >= 5) & (df["Age"] <= 17)` for one row. */
  predicate AgeInRange(row: Row)
  {
    "Age" in row &&
    match row["Age"]
    case IntVal(a) => 5 <= a <= 17
    case RealVal(x) => 5.0 <= x <= 17.0
    case StrVal(_) => false
  }

  /** The rows the mask keeps, in their original order. */
  function FilterByAge(rows: seq<Row>): (kept: seq<Row>)
    ensures |kept| <= |rows|
    ensures forall r :: r in kept <==> r in rows && AgeInRange(r)
  {
    if rows == [] then []
    else if AgeInRange(rows[0]) then [rows[0]] + FilterByAge(rows[1..])
    else FilterByAge(rows[1..])
  }

  /** Filtering a concatenation filters each part and keeps them in order: kept rows keep their relative order. */
  lemma {:induction false} FilterByAgeAppend(a: seq<Row>, b: seq<Row>)
    ensures FilterByAge(a + b) == FilterByAge(a) + FilterByAge(b)
  {
    if a == [] {
      assert a + b == b;
    } else {
      assert (a + b)[1..] == a[1..] + b;
      FilterByAgeAppend(a[1..], b);
    }
  }

  /** `df[output_columns]`: each row restricted to the output columns, cells unchanged. */
  function Project(rows: seq<Row>): (out: seq<Row>)
    ensures |out| == |rows|
    ensures forall i :: 0 <= i < |rows| ==> out[i].Keys == (set c | c in OutputColumns) * rows[i].Keys
    ensures forall i, c :: 0 <= i < |rows| && c in out[i] ==> out[i][c] == rows[i][c]
  {
    seq(|rows|, i requires 0 <= i < |rows| => map c | c in OutputColumns && c in rows[i] :: rows[i][c])
  }

  /** The whole preparation of a loaded frame. */
  function Prepare(t: Table): (r: Result<Table, PrepError>)
    ensures r.Failure? <==>
      MissingColumns(t.columns) != {} || exists i :: 0 <= i < |t.rows| && AgeIsText(t.rows[i])
    ensures r.Failure? && r.error.MissingRequiredColumns? <==> MissingColumns(t.columns) != {}
    ensures r.Failure? && r.error.MissingRequiredColumns? ==> r.error.missing == MissingColumns(t.columns)
    ensures r.Success? ==> r.value.columns == OutputColumns
    ensures r.Success? ==> |r.value.rows| == |FilterByAge(t.rows)|
    ensures r.Success? ==> forall i, c :: 0 <= i < |r.value.rows| && c in r.value.rows[i] ==>
      c in OutputColumns && c in FilterByAge(t.rows)[i] && r.value.rows[i][c] == FilterByAge(t.rows)[i][c]
  {
    var missing := MissingColumns(t.columns);
    if missing != {} then Failure(MissingRequiredColumns(missing))
    else if exists i :: 0 <= i < |t.rows| && AgeIsText(t.rows[i]) then Failure(AgeNotComparable)
    else Success(Table(OutputColumns, Project(FilterByAge(t.rows))))
  }

  /** On a well-formed frame that passes the check, every output row has exactly the seven output columns. */
  lemma PreparedRowsHaveOutputColumns(t: Table)
    requires WellFormed(t)
    requires Prepare(t).Success?
    ensures forall i :: 0 <= i < |Prepare(t).value.rows| ==>
      Prepare(t).value.rows[i].Keys == set c | c in OutputColumns
  {
    var kept := FilterByAge(t.rows);
    forall i | 0 <= i < |kept|
      ensures kept[i].Keys == set c | c in t.columns
    {
      assert kept[i] in kept;
    }
    assert forall c :: c in OutputColumns ==> c in RequiredColumns;
  }

  /** The processed dataset carries no Daily_Calories column, whatever the input. */
  lemma PreparedDropsDailyCalories(t: Table)
    requires Prepare(t).Success?
    ensures "Daily_Calories" !in Prepare(t).value.columns
    ensures forall i :: 0 <= i < |Prepare(t).value.rows| ==> "Daily_Calories" !in Prepare(t).value.rows[i]
  {
  }

  /** A row is kept exactly when its Age lies between 5 and 17, both ends included. */
  lemma KeepBounds(age: int)
    ensures AgeInRange(map["Age" := IntVal(age)]) <==> 5 <= age <= 17
    ensures AgeInRange(map["Age" := IntVal(5)]) && AgeInRange(map["Age" := IntVal(17)])
    ensures !AgeInRange(map["Age" := IntVal(4)]) && !AgeInRange(map["Age" := IntVal(18)])
  {
  }
}
