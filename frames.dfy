/**
 * The cells and columns of a pandas DataFrame, as far as the serving code and the
 * dataset preparation use them.
 */
module Frames {
  import opened Wrappers

  /** A DataFrame cell: an integer, a float (modelled as a real) or a string. */
  datatype Cell = IntVal(i: int) | RealVal(x: real) | StrVal(s: string)

  /** One named column of a single-row frame and its value. */
  datatype Column = Column(name: string, value: Cell)

  /** The column names of a single-row frame, in order. */
  function Names(row: seq<Column>): (names: seq<string>)
    ensures |names| == |row|
    ensures forall i :: 0 <= i < |row| ==> names[i] == row[i].name
  {
    seq(|row|, i requires 0 <= i < |row| => row[i].name)
  }

  /** No two columns share a name (a frame built from a dictionary literal). */
  predicate DistinctNames(row: seq<Column>)
  {
    forall i, j :: 0 <= i < j < |row| ==> row[i].name != row[j].name
  }

  /** The position of the column called `name`, as `df[name]` finds it; None when `df[name]` raises KeyError. */
  function FindColumn(row: seq<Column>, name: string): (r: Option<nat>)
    ensures r.Some? ==> r.value < |row| && row[r.value].name == name
    ensures r.None? <==> forall i :: 0 <= i < |row| ==> row[i].name != name
  {
    if row == [] then None
    else if row[0].name == name then Some(0)
    else match FindColumn(row[1..], name)
      case None => None
      case Some(k) => Some(k + 1)
  }

  /** The value of the column called `name`, if there is one. */
  function Lookup(row: seq<Column>, name: string): (r: Option<Cell>)
    ensures r.Some? <==> name in Names(row)
    ensures r.Some? ==> exists i :: 0 <= i < |row| && row[i] == Column(name, r.value)
  {
    match FindColumn(row, name)
    case None => None
    case Some(i) => Some(row[i].value)
  }

  /** In a frame with distinct names, looking a column up by its name finds that column. */
  lemma LookupAt(row: seq<Column>, i: nat)
    requires DistinctNames(row) && i < |row|
    ensures Lookup(row, row[i].name) == Some(row[i].value)
  {
    assert row[i].name in Names(row);
  }
}
