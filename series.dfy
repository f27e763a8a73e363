/**
 * `multiple_timeseries`: the short-interest series of several dataset
 * codes, each tagged with its ticker, stacked in the order of the codes.
 *
 * `Stack` is a column-by-column definition of the stacked table; the loop
 * that appends one tagged table at a time (`RedditAlgo.MultipleTimeseries`)
 * is proved to build exactly it, through `StackStep`.
 */
module Series {
  import opened Results
  import opened Frames
  import opened Codes

  /** The column each block is tagged in. */
  const TickerColumn: string := "ticker"

  /** `quandl.get(code, start_date, end_date)`. */
  type ShortInterest = (string, string, string) -> Result<Table, ProviderError>

  /** `df['ticker'] = tag` on a fetched table: the tag on every row. */
  function Tagged(t: Table, tag: string): Table
  {
    WithColumn(t, TickerColumn, Repeat(t.height, Text(tag)))
  }

  /** The ticker tag of each code, `code[code.find('/') + 1:]`. */
  function Tags(codes: seq<string>): (tags: seq<string>)
    ensures |tags| == |codes| && forall i :: 0 <= i < |codes| ==> tags[i] == TickerTag(codes[i])
    ensures forall i :: 0 <= i < |codes| ==>
      && ('/' !in codes[i] ==> tags[i] == codes[i])
      && ('/' in codes[i] ==>
            && |tags[i]| < |codes[i]|
            && var head := codes[i][..|codes[i]| - |tags[i]| - 1];
               codes[i] == head + "/" + tags[i] && '/' !in head)
  {
    seq(|codes|, i requires 0 <= i < |codes| => TickerTag(codes[i]))
  }

  /** The tags of one more code: the earlier tags, then the new code's. */
  lemma TagsStep(codes: seq<string>, i: nat)
    requires i < |codes|
    ensures Tags(codes[..i + 1]) == Tags(codes[..i]) + [TickerTag(codes[i])]
  {
    var front, next := Tags(codes[..i]), Tags(codes[..i + 1]);
    assert forall k :: 0 <= k < i ==> next[k] == front[k];
  }

  /**
   * The provider's tables for the codes, requested in order; the first
   * provider error stops the requests and reaches the caller.
   */
  function FetchAll(codes: seq<string>, source: ShortInterest, start: string, end: string)
    : (r: Result<seq<Table>, ProviderError>)
    ensures r.Success? ==> |r.value| == |codes|
  {
    if codes == [] then Success([])
    else
      match FetchAll(codes[..|codes| - 1], source, start, end)
      case Failure(e) => Failure(e)
      case Success(ts) =>
        match source(codes[|codes| - 1], start, end)
        case Failure(e) => Failure(e)
        case Success(t) => Success(ts + [t])
  }

  /** A provider whose every table has one entry per row in each column, as a pandas DataFrame does. */
  ghost predicate Reliable(source: ShortInterest)
  {
    forall code, start, end :: source(code, start, end).Success? ==> source(code, start, end).value.WellFormed()
  }

  /** Every table has one entry per row in each column. */
  predicate AllWellFormed(tables: seq<Table>)
  {
    forall i :: 0 <= i < |tables| ==> tables[i].WellFormed()
  }

  /** The number of rows of the tables together. */
  function Rows(tables: seq<Table>): nat
  {
    if tables == [] then 0 else Rows(tables[..|tables| - 1]) + tables[|tables| - 1].height
  }

  /** The columns of the tables, and `ticker` once there is a table. */
  function StackKeys(tables: seq<Table>): set<string>
  {
    if tables == [] then {} else StackKeys(tables[..|tables| - 1]) + tables[|tables| - 1].cols.Keys + {TickerColumn}
  }

  /** Column n of the stack: each tagged table's column n, or NaN where it has none, in turn. */
  function StackColumn(tags: seq<string>, tables: seq<Table>, n: string): seq<Cell>
    requires |tags| == |tables|
  {
    if tables == [] then []
    else
      StackColumn(tags[..|tags| - 1], tables[..|tables| - 1], n)
      + ColumnOr(Tagged(tables[|tables| - 1], tags[|tags| - 1]), n)
  }

  /** The tables, each tagged with its tag, stacked in order. */
  function Stack(tags: seq<string>, tables: seq<Table>): Table
    requires |tags| == |tables|
  {
    Table(map n | n in StackKeys(tables) :: StackColumn(tags, tables, n), Rows(tables))
  }

  /** The result of `multiple_timeseries` for the codes. */
  function Stacked(codes: seq<string>, source: ShortInterest, start: string, end: string)
    : Result<Table, ProviderError>
  {
    match FetchAll(codes, source, start, end)
    case Failure(e) => Failure(e)
    case Success(tables) => Success(Stack(Tags(codes), tables))
  }

  /**
   * Fetching succeeds exactly when every code's request succeeds, and then
   * table i is what the provider returned for code i.
   */
  lemma {:induction false} FetchAllSuccess(codes: seq<string>, source: ShortInterest, start: string, end: string)
    ensures FetchAll(codes, source, start, end).Success? <==>
      forall i :: 0 <= i < |codes| ==> source(codes[i], start, end).Success?
    ensures FetchAll(codes, source, start, end).Success? ==>
      forall i :: 0 <= i < |codes| ==> source(codes[i], start, end) == Success(FetchAll(codes, source, start, end).value[i])
  {
    if codes != [] {
      var prefix := codes[..|codes| - 1];
      FetchAllSuccess(prefix, source, start, end);
      assert forall i :: 0 <= i < |prefix| ==> prefix[i] == codes[i];
    }
  }

  /** A failed result carries the error of the first code whose request fails. */
  lemma {:induction false} FetchAllFirstFailure(codes: seq<string>, source: ShortInterest, start: string, end: string)
    requires FetchAll(codes, source, start, end).Failure?
    ensures exists i :: 0 <= i < |codes| && source(codes[i], start, end) == Failure(FetchAll(codes, source, start, end).error)
                        && forall j :: 0 <= j < i ==> source(codes[j], start, end).Success?
  {
    var prefix := codes[..|codes| - 1];
    var e := FetchAll(codes, source, start, end).error;
    if FetchAll(prefix, source, start, end).Failure? {
      FetchAllFirstFailure(prefix, source, start, end);
      var i :| 0 <= i < |prefix| && source(prefix[i], start, end) == Failure(e)
               && forall j :: 0 <= j < i ==> source(prefix[j], start, end).Success?;
      assert forall j :: 0 <= j <= i ==> prefix[j] == codes[j];
    } else {
      FetchAllSuccess(prefix, source, start, end);
      assert forall j :: 0 <= j < |prefix| ==> prefix[j] == codes[j];
    }
  }

  /** Once a prefix of the codes fails, fetching all of them fails with the same error. */
  lemma {:induction false} FetchAllPrefixFailure(codes: seq<string>, m: nat, source: ShortInterest, start: string, end: string)
    requires m <= |codes| && FetchAll(codes[..m], source, start, end).Failure?
    ensures FetchAll(codes, source, start, end) == FetchAll(codes[..m], source, start, end)
    decreases |codes| - m
  {
    if m < |codes| {
      var next := codes[..m + 1];
      assert next[..m] == codes[..m];
      FetchAllPrefixFailure(codes, m + 1, source, start, end);
    } else {
      assert codes[..m] == codes;
    }
  }

  /** A provider error on code i, after codes 0 to i-1 succeeded, is the error fetching all the codes gives. */
  lemma FetchAllStopsAt(codes: seq<string>, i: nat, source: ShortInterest, start: string, end: string)
    requires i < |codes| && FetchAll(codes[..i], source, start, end).Success?
    requires source(codes[i], start, end).Failure?
    ensures FetchAll(codes, source, start, end) == Failure(source(codes[i], start, end).error)
  {
    assert codes[..i + 1][..i] == codes[..i];
    FetchAllPrefixFailure(codes, i + 1, source, start, end);
  }

  /** The tables a reliable provider returns are well formed. */
  lemma {:induction false} FetchAllWellFormed(codes: seq<string>, source: ShortInterest, start: string, end: string)
    requires Reliable(source) && FetchAll(codes, source, start, end).Success?
    ensures AllWellFormed(FetchAll(codes, source, start, end).value)
  {
    if codes != [] {
      FetchAllWellFormed(codes[..|codes| - 1], source, start, end);
    }
  }

  /** Tagging keeps a table well formed, and puts the tag on every row of `ticker`. */
  lemma TaggedShape(t: Table, tag: string)
    requires t.WellFormed()
    ensures var r := Tagged(t, tag);
      && r.WellFormed() && r.height == t.height
      && r.cols.Keys == t.cols.Keys + {TickerColumn}
      && (forall n :: n in t.cols && n != TickerColumn ==> r.cols[n] == t.cols[n])
      && (forall j :: 0 <= j < t.height ==> r.cols[TickerColumn][j] == Text(tag))
  {
    WithColumnShape(t, TickerColumn, Repeat(t.height, Text(tag)));
  }

  /** Every column of the stack has one entry per row of the tables. */
  lemma {:induction false} StackColumnLength(tags: seq<string>, tables: seq<Table>, n: string)
    requires |tags| == |tables| && AllWellFormed(tables)
    ensures |StackColumn(tags, tables, n)| == Rows(tables)
  {
    if tables != [] {
      var k := |tables| - 1;
      StackColumnLength(tags[..k], tables[..k], n);
      TaggedShape(tables[k], tags[k]);
      ColumnOrLength(Tagged(tables[k], tags[k]), n);
    }
  }

  /** The stack of well-formed tables is well formed and has the rows of all of them. */
  lemma StackWellFormed(tags: seq<string>, tables: seq<Table>)
    requires |tags| == |tables| && AllWellFormed(tables)
    ensures Stack(tags, tables).WellFormed() && Stack(tags, tables).height == Rows(tables)
  {
    forall n | n in StackKeys(tables)
      ensures |StackColumn(tags, tables, n)| == Rows(tables)
    {
      StackColumnLength(tags, tables, n);
    }
  }

  /**
   * The stack has a column exactly when one of the tables has it, or when it
   * is `ticker` and there is at least one table.
   */
  lemma {:induction false} StackKeysIff(tables: seq<Table>, n: string)
    ensures n in StackKeys(tables) <==>
      (tables != [] && n == TickerColumn) || exists i :: 0 <= i < |tables| && n in tables[i].cols
  {
    if tables != [] {
      var front := tables[..|tables| - 1];
      StackKeysIff(front, n);
      assert forall i :: 0 <= i < |front| ==> front[i] == tables[i];
    }
  }

  /** A column no table has and that is not `ticker` is NaN on every row of the stack. */
  lemma {:induction false} StackColumnAbsent(tags: seq<string>, tables: seq<Table>, n: string)
    requires |tags| == |tables| && AllWellFormed(tables) && n !in StackKeys(tables)
    ensures StackColumn(tags, tables, n) == Repeat(Rows(tables), NonFinite)
  {
    if tables != [] {
      var k := |tables| - 1;
      StackColumnAbsent(tags[..k], tables[..k], n);
      TaggedShape(tables[k], tags[k]);
      assert Repeat(Rows(tables), NonFinite) == Repeat(Rows(tables[..k]), NonFinite) + Repeat(tables[k].height, NonFinite);
    }
  }

  /** Each column of the stack, NaN-filled where absent, is the stacked column. */
  lemma StackColumnOr(tags: seq<string>, tables: seq<Table>, n: string)
    requires |tags| == |tables| && AllWellFormed(tables)
    ensures ColumnOr(Stack(tags, tables), n) == StackColumn(tags, tables, n)
  {
    if n !in StackKeys(tables) {
      StackColumnAbsent(tags, tables, n);
    }
  }

  /** The tables before table k have no more rows than all of them. */
  lemma {:induction false} RowsPrefix(tables: seq<Table>, k: nat)
    requires k <= |tables|
    ensures Rows(tables[..k]) <= Rows(tables)
  {
    if k < |tables| {
      var front := tables[..|tables| - 1];
      RowsPrefix(front, k);
      assert front[..k] == tables[..k];
    } else {
      assert tables[..k] == tables;
    }
  }

  /** Table k ends no later than the last row of all the tables. */
  lemma RowsBlockEnd(tables: seq<Table>, k: nat)
    requires k < |tables|
    ensures Rows(tables[..k]) + tables[k].height <= Rows(tables)
  {
    assert tables[..k + 1][..k] == tables[..k];
    RowsPrefix(tables, k + 1);
  }

  /**
   * What the stack holds for row j of table k in column n: the tag of code k
   * in `ticker`, the table's own entry in its other columns, and NaN in a
   * column only other tables have.
   */
  function BlockCell(tags: seq<string>, tables: seq<Table>, k: nat, n: string, j: nat): Cell
    requires k < |tags| && k < |tables| && AllWellFormed(tables) && j < tables[k].height
  {
    if n == TickerColumn then Text(tags[k])
    else if n in tables[k].cols then tables[k].cols[n][j]
    else NonFinite
  }

  /** Row j of column n of a tagged table, NaN-filled where absent. */
  lemma TaggedColumnOr(t: Table, tag: string, n: string, j: nat)
    requires t.WellFormed() && j < t.height
    ensures j < |ColumnOr(Tagged(t, tag), n)|
    ensures ColumnOr(Tagged(t, tag), n)[j] ==
      if n == TickerColumn then Text(tag) else if n in t.cols then t.cols[n][j] else NonFinite
  {
    TaggedShape(t, tag);
  }

  /** The rows of the stack of all but the last table stay where they are. */
  lemma StackColumnFront(tags: seq<string>, tables: seq<Table>, n: string, i: nat)
    requires |tags| == |tables| && tables != []
    requires i < |StackColumn(tags[..|tags| - 1], tables[..|tables| - 1], n)|
    ensures i < |StackColumn(tags, tables, n)|
    ensures StackColumn(tags, tables, n)[i] == StackColumn(tags[..|tags| - 1], tables[..|tables| - 1], n)[i]
  {
  }

  /** The last block of column n of the stack holds what the last table holds. */
  lemma StackColumnLast(tags: seq<string>, tables: seq<Table>, n: string, k: nat, j: nat)
    requires |tags| == |tables| && AllWellFormed(tables) && k == |tables| - 1 && j < tables[k].height
    ensures Rows(tables[..k]) + j < |StackColumn(tags, tables, n)|
    ensures StackColumn(tags, tables, n)[Rows(tables[..k]) + j] == BlockCell(tags, tables, k, n, j)
  {
    StackColumnLength(tags[..k], tables[..k], n);
    TaggedColumnOr(tables[k], tags[k], n, j);
  }

  /** A cell of an earlier block keeps its place and its value when one more table is stacked. */
  lemma StackColumnCellFront(tags: seq<string>, tables: seq<Table>, n: string, k: nat, j: nat)
    requires |tags| == |tables| && AllWellFormed(tables) && k < |tables| - 1 && j < tables[k].height
    requires var front, frontTags := tables[..|tables| - 1], tags[..|tags| - 1];
      && Rows(front[..k]) + j < |StackColumn(frontTags, front, n)|
      && StackColumn(frontTags, front, n)[Rows(front[..k]) + j] == BlockCell(frontTags, front, k, n, j)
    ensures Rows(tables[..k]) + j < |StackColumn(tags, tables, n)|
    ensures StackColumn(tags, tables, n)[Rows(tables[..k]) + j] == BlockCell(tags, tables, k, n, j)
  {
    var last := |tables| - 1;
    var front, frontTags := tables[..last], tags[..last];
    assert front[..k] == tables[..k];
    StackColumnFront(tags, tables, n, Rows(front[..k]) + j);
    assert BlockCell(frontTags, front, k, n, j) == BlockCell(tags, tables, k, n, j) by {
      assert frontTags[k] == tags[k] && front[k] == tables[k];
    }
  }

  /**
   * Row j of block k of column n of the stack (the block starts after the
   * rows of the tables before table k) is what table k holds for row j.
   */
  lemma {:induction false} StackColumnCell(tags: seq<string>, tables: seq<Table>, n: string, k: nat, j: nat)
    requires |tags| == |tables| && AllWellFormed(tables) && k < |tables| && j < tables[k].height
    ensures Rows(tables[..k]) + j < |StackColumn(tags, tables, n)|
    ensures StackColumn(tags, tables, n)[Rows(tables[..k]) + j] == BlockCell(tags, tables, k, n, j)
  {
    var last := |tables| - 1;
    var front, frontTags := tables[..last], tags[..last];
    if k < last {
      assert AllWellFormed(front);
      StackColumnCell(frontTags, front, n, k, j);
      StackColumnCellFront(tags, tables, n, k, j);
    } else {
      StackColumnLast(tags, tables, n, k, j);
    }
  }

  /**
   * Row j of block k of the stack (the block starts after the rows of the
   * tables before table k) holds row j of table k in every column of that
   * table, the ticker tag of code k in `ticker`, and NaN in every other
   * column of the stack; the block ends within the stack's rows.
   */
  lemma StackCell(tags: seq<string>, tables: seq<Table>, k: nat, n: string, j: nat)
    requires |tags| == |tables| && AllWellFormed(tables) && k < |tables| && j < tables[k].height
    requires n in Stack(tags, tables).cols
    ensures Rows(tables[..k]) + j < |Stack(tags, tables).cols[n]|
    ensures Stack(tags, tables).cols[n][Rows(tables[..k]) + j] == BlockCell(tags, tables, k, n, j)
    ensures Rows(tables[..k]) + tables[k].height <= Rows(tables)
  {
    RowsBlockEnd(tables, k);
    StackColumnOr(tags, tables, n);
    StackColumnCell(tags, tables, n, k, j);
  }

  /** Stacking no tables gives `pd.DataFrame()`. */
  lemma StackEmpty()
    ensures Stack([], []) == Empty
  {
    assert Stack([], []).cols == map[];
  }

  /** Column n after one more tagged table: the stack's column n, then the new block's. */
  lemma StackColumnStep(tags: seq<string>, tables: seq<Table>, tag: string, t: Table, n: string)
    requires |tags| == |tables| && AllWellFormed(tables) && t.WellFormed()
    ensures StackColumn(tags + [tag], tables + [t], n) == ColumnOr(Stack(tags, tables), n) + ColumnOr(Tagged(t, tag), n)
  {
    assert (tags + [tag])[..|tags|] == tags;
    assert (tables + [t])[..|tables|] == tables;
    StackColumnOr(tags, tables, n);
  }

  /**
   * `full_df.append(df)` with the next table, tagged, is the stack of one
   * more table: the loop builds the column-by-column definition.
   */
  lemma StackStep(tags: seq<string>, tables: seq<Table>, tag: string, t: Table)
    requires |tags| == |tables| && AllWellFormed(tables) && t.WellFormed()
    ensures Append(Stack(tags, tables), Tagged(t, tag)) == Stack(tags + [tag], tables + [t])
  {
    var s, b := Stack(tags, tables), Tagged(t, tag);
    var tags', tables' := tags + [tag], tables + [t];
    StackWellFormed(tags, tables);
    TaggedShape(t, tag);
    AppendShape(s, b);
    assert tables'[..|tables|] == tables;
    var lhs, rhs := Append(s, b), Stack(tags', tables');
    assert rhs.cols.Keys == lhs.cols.Keys;
    forall n | n in lhs.cols
      ensures lhs.cols[n] == rhs.cols[n]
    {
      StackColumnStep(tags, tables, tag, t, n);
    }
    assert lhs.cols == rhs.cols;
  }

  /** One more code fetched: its table joins the fetched tables. */
  lemma FetchAllStep(codes: seq<string>, i: nat, source: ShortInterest, start: string, end: string, tables: seq<Table>)
    requires i < |codes| && FetchAll(codes[..i], source, start, end) == Success(tables)
    requires source(codes[i], start, end).Success?
    ensures FetchAll(codes[..i + 1], source, start, end) == Success(tables + [source(codes[i], start, end).value])
  {
    assert codes[..i + 1][..i] == codes[..i];
  }

  /**
   * Stacking the tables of the first i codes and then appending the next
   * table tagged with code i's tag gives the stack of the first i + 1.
   */
  lemma StackPrefixStep(codes: seq<string>, i: nat, tables: seq<Table>, t: Table)
    requires i < |codes| && |tables| == i && AllWellFormed(tables) && t.WellFormed()
    ensures Append(Stack(Tags(codes[..i]), tables), Tagged(t, TickerTag(codes[i]))) == Stack(Tags(codes[..i + 1]), tables + [t])
  {
    StackStep(Tags(codes[..i]), tables, TickerTag(codes[i]), t);
    TagsStep(codes, i);
  }
}
