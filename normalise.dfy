/**
 * `Base.normalise_column`: adds a `Normalised` column of relative change
 * from the first row, and leaves the table untouched on any failure.
 */
module Normalise {
  import opened Results
  import opened Frames

  /** The name of the column normalisation adds. */
  const NormalisedName: string := "Normalised"

  /** True of the entries NumPy can subtract and divide. */
  predicate Arithmetic(c: Cell)
  {
    c.Num? || c.NonFinite?
  }

  /**
   * `(x - first) / first` on one entry; None when Python raises a TypeError
   * (a string or None operand). Dividing by a zero NumPy scalar does not
   * raise: it gives NaN or an infinity.
   */
  function RelativeChange(x: Cell, first: Cell): (r: Option<Cell>)
    ensures r.Some? <==> Arithmetic(x) && Arithmetic(first)
    ensures x.Num? && first.Num? && first.v != 0.0 ==> r == Some(Num((x.v - first.v) / first.v))
  {
    if !Arithmetic(x) || !Arithmetic(first) then None
    else if x.Num? && first.Num? && first.v != 0.0 then Some(Num((x.v - first.v) / first.v))
    else Some(NonFinite)
  }

  /** The list comprehension over a column; None when any entry raises. */
  function RelativeColumn(xs: seq<Cell>, first: Cell): (r: Option<seq<Cell>>)
    ensures r.Some? <==> forall i :: 0 <= i < |xs| ==> RelativeChange(xs[i], first).Some?
    ensures r.Some? ==> |r.value| == |xs| && forall i :: 0 <= i < |xs| ==> Some(r.value[i]) == RelativeChange(xs[i], first)
  {
    if forall i :: 0 <= i < |xs| ==> RelativeChange(xs[i], first).Some? then
      Some(seq(|xs|, i requires 0 <= i < |xs| => RelativeChange(xs[i], first).value))
    else None
  }

  /**
   * The body of the `try`: the new column, or None when reading the first
   * row (empty table, missing column) or computing an entry raises.
   */
  function NormaliseAttempt(t: Table, column: string): Option<seq<Cell>>
    requires t.WellFormed()
  {
    if t.height == 0 || column !in t.cols then None
    else RelativeColumn(t.cols[column], t.cols[column][0])
  }

  /** The table after `normalise_column(t, normalise, column)`. */
  function Normalised(t: Table, normalise: bool, column: Option<string>): (r: Table)
    requires t.WellFormed()
    ensures r.WellFormed() && r.height == t.height
  {
    if normalise && column.Some? then
      match NormaliseAttempt(t, column.value)
      case None => t
      case Some(values) =>
        WithColumnShape(t, NormalisedName, values);
        WithColumn(t, NormalisedName, values)
    else t
  }

  /**
   * `normalise_column` on a DataFrame object: changes it in place and
   * returns it on success; returns None, leaving it unchanged, when it is
   * disabled or when any step of the attempt fails.
   */
  method NormaliseColumn(df: DataFrame, normalise: bool := false, column: Option<string> := None)
    returns (r: Option<DataFrame>)
    requires df.Valid()
    modifies df
    ensures df.Valid()
    ensures df.Value() == Normalised(old(df.Value()), normalise, column)
    ensures r.Some? <==> normalise && column.Some? && NormaliseAttempt(old(df.Value()), column.value).Some?
    ensures r.Some? ==> r.value == df
  {
    r := None;
    if normalise && column.Some? {
      var name := column.value;
      // dataframe.iloc[0][name]: IndexError or KeyError, swallowed
      if df.height == 0 || name !in df.cols {
        return;
      }
      var xs := df.cols[name];
      var first := xs[0];
      var values: seq<Cell> := [];
      var i := 0;
      while i < |xs|
        invariant 0 <= i <= |xs|
        invariant |values| == i
        invariant forall k :: 0 <= k < i ==> RelativeChange(xs[k], first) == Some(values[k])
      {
        var v := RelativeChange(xs[i], first);
        if v.None? {
          // TypeError, swallowed
          assert !(forall k :: 0 <= k < |xs| ==> RelativeChange(xs[k], first).Some?);
          return;
        }
        values := values + [v.value];
        i := i + 1;
      }
      assert forall k :: 0 <= k < |xs| ==> RelativeChange(xs[k], first).Some?;
      assert values == seq(|xs|, k requires 0 <= k < |xs| => RelativeChange(xs[k], first).value);
      df.SetColumn(NormalisedName, values);
      r := Some(df);
    }
  }

  /** Disabled, or with no column named, normalisation leaves the table as it was. */
  lemma NormaliseDisabled(t: Table, normalise: bool, column: Option<string>)
    requires t.WellFormed()
    requires !normalise || column.None?
    ensures Normalised(t, normalise, column) == t
  {
  }

  /** An empty table or a missing column: nothing raised, nothing added. */
  lemma NormaliseMissingColumn(t: Table, column: string)
    requires t.WellFormed()
    requires t.height == 0 || column !in t.cols
    ensures Normalised(t, true, Some(column)) == t
  {
  }

  /**
   * The attempt succeeds exactly when the table has a first row, the column
   * exists, and every entry of the column is a number, NaN or infinity.
   */
  lemma NormaliseSucceedsIff(t: Table, column: string)
    requires t.WellFormed()
    ensures NormaliseAttempt(t, column).Some? <==>
      && t.height > 0
      && column in t.cols
      && forall i :: 0 <= i < t.height ==> Arithmetic(t.cols[column][i])
  {
    if t.height > 0 && column in t.cols {
      var xs := t.cols[column];
      if forall i :: 0 <= i < |xs| ==> RelativeChange(xs[i], xs[0]).Some? {
        assert RelativeChange(xs[0], xs[0]).Some?;
      }
    }
  }

  /**
   * On success the table gains (or has replaced) `Normalised`: one entry per
   * row, entry i the relative change of row i from row 0, and 0 in row 0
   * when the first value is a non-zero number; no other column and not the
   * row count are changed.
   */
  lemma NormalisedShape(t: Table, column: string)
    requires t.WellFormed() && NormaliseAttempt(t, column).Some?
    ensures var r := Normalised(t, true, Some(column));
      && r.height == t.height
      && NormalisedName in r.cols
      && |r.cols[NormalisedName]| == t.height
      && (forall i :: 0 <= i < t.height ==>
            Some(r.cols[NormalisedName][i]) == RelativeChange(t.cols[column][i], t.cols[column][0]))
      && (var x0 := t.cols[column][0]; x0.Num? && x0.v != 0.0 ==> r.cols[NormalisedName][0] == Num(0.0))
      && (forall n :: n in t.cols && n != NormalisedName ==> n in r.cols && r.cols[n] == t.cols[n])
      && (forall n :: n in r.cols <==> n in t.cols || n == NormalisedName)
  {
    WithColumnShape(t, NormalisedName, NormaliseAttempt(t, column).value);
  }

  /**
   * Normalising twice on a column other than `Normalised` gives the same
   * table as normalising once: the second pass recomputes the same values
   * from the unchanged source column.
   */
  lemma NormaliseTwice(t: Table, column: string)
    requires t.WellFormed() && column != NormalisedName
    ensures Normalised(Normalised(t, true, Some(column)), true, Some(column)) == Normalised(t, true, Some(column))
  {
    var once := Normalised(t, true, Some(column));
    match NormaliseAttempt(t, column)
    case None =>
    case Some(values) =>
      assert once.cols[column] == t.cols[column];
      assert NormaliseAttempt(once, column) == Some(values);
      assert once.cols[NormalisedName := values] == once.cols;
  }

  /**
   * Normalising the `Normalised` column itself is not idempotent: the first
   * pass puts 0 in row 0, so the second divides by zero.
   */
  lemma NormaliseTwiceOnNormalised(t: Table)
    requires t.WellFormed() && NormalisedName in t.cols && t.cols[NormalisedName] == [Num(2.0), Num(3.0)]
    ensures Normalised(t, true, Some(NormalisedName)).cols[NormalisedName] == [Num(0.0), Num(0.5)]
    ensures Normalised(Normalised(t, true, Some(NormalisedName)), true, Some(NormalisedName)).cols[NormalisedName]
            == [NonFinite, NonFinite]
  {
    var once := Normalised(t, true, Some(NormalisedName));
    assert once.cols[NormalisedName] == [Num(0.0), Num(0.5)];
  }
}
