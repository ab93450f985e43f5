/**
 * The one-row table handed to the anomaly model: the feature values paired,
 * position by position, with the column names the model was trained on, and
 * the lookup of a value by its column name.
 */
module Frame {

  datatype Option<T> = None | Some(value: T)

  /** A single-row frame: one (column name, value) cell per column, in column order. */
  type Row = seq<(string, real)>

  /** No name occurs twice in `names`. */
  predicate Distinct(names: seq<string>) {
    forall i, j :: 0 <= i < j < |names| ==> names[i] != names[j]
  }

  /** Pair `values` with `names` by position, as a frame built from one row and a column list. */
  function MakeRow(names: seq<string>, values: seq<real>): (row: Row)
    requires |names| == |values|
    ensures |row| == |names|
    ensures forall i :: 0 <= i < |row| ==> row[i].0 == names[i] && row[i].1 == values[i]
  {
    if names == [] then [] else [(names[0], values[0])] + MakeRow(names[1..], values[1..])
  }

  /** The column names of a row, in order. */
  function Columns(row: Row): (names: seq<string>)
    ensures |names| == |row|
    ensures forall i :: 0 <= i < |row| ==> names[i] == row[i].0
  {
    if row == [] then [] else [row[0].0] + Columns(row[1..])
  }

  /** The value in the first column called `name`, if there is one. */
  function Column(row: Row, name: string): (v: Option<real>)
  {
    if row == [] then None
    else if row[0].0 == name then Some(row[0].1)
    else Column(row[1..], name)
  }

  /** With distinct column names, the value found under column i's name is cell i's value. */
  lemma {:induction false} ColumnAt(row: Row, i: nat)
    requires Distinct(Columns(row))
    requires i < |row|
    ensures Column(row, row[i].0) == Some(row[i].1)
  {
    if i > 0 {
      assert Columns(row)[0] != Columns(row)[i];
      assert Columns(row[1..]) == Columns(row)[1..];
      ColumnAt(row[1..], i - 1);
    }
  }

  /** Looking up the i-th name of a frame built by `MakeRow` gives back the i-th value. */
  lemma MakeRowColumn(names: seq<string>, values: seq<real>, i: nat)
    requires |names| == |values|
    requires Distinct(names)
    requires i < |names|
    ensures Column(MakeRow(names, values), names[i]) == Some(values[i])
  {
    var row := MakeRow(names, values);
    assert Columns(row) == names;
    ColumnAt(row, i);
  }
}
