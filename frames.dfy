/**
 * The tables the providers return and the session hands back: a map from
 * column name to the column's entries, with a row count, like a pandas
 * DataFrame (neither the row index nor the column order is modelled).
 */
module Frames {

  /**
   * One table entry: a number, a string, a missing value (Python's None),
   * or a NumPy NaN/infinity.
   */
  datatype Cell = Num(v: real) | Text(s: string) | Null | NonFinite

  datatype Table = Table(cols: map<string, seq<Cell>>, height: nat)
  {
    /** Every column has one entry per row. */
    predicate WellFormed()
    {
      forall n :: n in cols ==> |cols[n]| == height
    }
  }

  /** `pd.DataFrame()`: no columns, no rows. */
  const Empty: Table := Table(map[], 0)

  /**
   * `df[name] = values`: replaces the column when it exists, otherwise adds
   * it (pandas refuses values of another length than the table's).
   */
  function WithColumn(t: Table, name: string, values: seq<Cell>): Table
  {
    Table(t.cols[name := values], t.height)
  }

  /** `n` copies of one value: a scalar assigned to a whole column. */
  function Repeat(n: nat, c: Cell): (r: seq<Cell>)
    ensures |r| == n && forall i :: 0 <= i < n ==> r[i] == c
  {
    seq(n, _ => c)
  }

  /** A column of `t`, or NaN on every row when `t` has no such column. */
  function ColumnOr(t: Table, n: string): seq<Cell>
  {
    if n in t.cols then t.cols[n] else Repeat(t.height, NonFinite)
  }

  /**
   * `a.append(b)`: the rows of `a` followed by those of `b`, over the
   * columns of either; a column one side lacks is NaN on that side's rows.
   */
  function Append(a: Table, b: Table): Table
  {
    Table(map n | n in a.cols.Keys + b.cols.Keys :: ColumnOr(a, n) + ColumnOr(b, n), a.height + b.height)
  }

  /**
   * Assigning a column of the right length keeps the table well formed and
   * its row count, sets that column, and keeps every other column as it was.
   */
  lemma WithColumnShape(t: Table, name: string, values: seq<Cell>)
    requires t.WellFormed() && |values| == t.height
    ensures var r := WithColumn(t, name, values);
      && r.WellFormed() && r.height == t.height
      && name in r.cols && r.cols[name] == values
      && (forall n :: n in r.cols <==> n in t.cols || n == name)
      && (forall n :: n in t.cols && n != name ==> r.cols[n] == t.cols[n])
  {
  }

  /** A column of a well-formed table, real or NaN-filled, has one entry per row. */
  lemma ColumnOrLength(t: Table, n: string)
    requires t.WellFormed()
    ensures |ColumnOr(t, n)| == t.height
  {
  }

  /**
   * Appending well-formed tables gives a well-formed table with the rows of
   * both, the columns of either, and each column the first table's entries
   * (or NaN) followed by the second's (or NaN).
   */
  lemma AppendShape(a: Table, b: Table)
    requires a.WellFormed() && b.WellFormed()
    ensures var r := Append(a, b);
      && r.WellFormed() && r.height == a.height + b.height
      && (forall n :: n in r.cols <==> n in a.cols || n in b.cols)
      && (forall n :: n in r.cols ==> r.cols[n] == ColumnOr(a, n) + ColumnOr(b, n))
  {
  }

  /**
   * Column n of an appended table, NaN-filled where a side lacks it, is that
   * of the first table followed by that of the second.
   */
  lemma AppendColumnOr(a: Table, b: Table, n: string)
    requires a.WellFormed() && b.WellFormed()
    ensures ColumnOr(Append(a, b), n) == ColumnOr(a, n) + ColumnOr(b, n)
  {
    if n !in a.cols && n !in b.cols {
      assert Repeat(a.height + b.height, NonFinite) == Repeat(a.height, NonFinite) + Repeat(b.height, NonFinite);
    }
  }

  /** A pandas DataFrame object: a table that `df[name] = ...` changes in place. */
  class DataFrame {
    var cols: map<string, seq<Cell>>
    var height: nat

    /** The table this object currently holds. */
    function Value(): Table
      reads this
    {
      Table(cols, height)
    }

    predicate Valid()
      reads this
    {
      Value().WellFormed()
    }

    constructor (t: Table)
      requires t.WellFormed()
      ensures Valid() && Value() == t
    {
      cols, height := t.cols, t.height;
    }

    /** `self[name] = values`. */
    method SetColumn(name: string, values: seq<Cell>)
      requires Valid() && |values| == height
      modifies this
      ensures Valid() && Value() == WithColumn(old(Value()), name, values)
    {
      WithColumnShape(Value(), name, values);
      cols := cols[name := values];
    }
  }
}
