// The backend's preprocessing service: which columns an operation touches,
// which operation types change data, how `apply` stores its result, and the
// column defaulting of the summary statistics. A dataset is its list of
// columns; the numbers in them are not modelled, only which scalings each
// column has been through.
module PreprocessingService {
  import opened Base

  /** The two scalers the service applies. */
  datatype Scaling = Standardized | Normalized

  /** The dtype kinds the service tells apart. pandas counts booleans as
      numeric (`is_numeric_dtype`) but not as numbers
      (`select_dtypes(include=["number"])`); everything else is neither. */
  datatype Dtype = BoolDtype | NumberDtype | OtherDtype

  /** The dtypes `is_numeric_dtype` accepts. */
  const NumericDtypes: set<Dtype> := {BoolDtype, NumberDtype}

  /** A column: its name, its dtype, and the scalings applied to it so far,
      oldest first. */
  datatype Column = Column(name: string, dtype: Dtype, scalings: seq<Scaling>) {
    /** `is_numeric_dtype` on this column. */
    predicate Numeric() {
      dtype in NumericDtypes
    }
  }

  type Dataset = seq<Column>

  /** One entry of `operations`: its "type" (None when absent) and its
      "columns" (absent, None and empty all read as no columns). */
  datatype Operation = Operation(opType: Option<string>, columns: seq<string>)

  /** Why a service call raises: an unknown dataset id (`KeyError`), requested
      columns the dataset does not have, or nothing numeric to describe
      (pandas' `describe` refuses a frame without columns). */
  datatype ServiceError = UnknownDataset(id: string) | MissingColumns(names: seq<string>) | NothingToDescribe

  /** `df.columns`. */
  function Names(df: Dataset): (r: seq<string>)
    ensures |r| == |df| && forall i :: 0 <= i < |df| ==> r[i] == df[i].name
  {
    seq(|df|, i requires 0 <= i < |df| => df[i].name)
  }

  /** The names of the columns whose dtype is one of `dtypes`, in column order. */
  function ColumnsOf(df: Dataset, dtypes: set<Dtype>): (r: seq<string>)
    ensures |r| <= |df|
    decreases |df|
  {
    if df == [] then []
    else if df[0].dtype in dtypes then [df[0].name] + ColumnsOf(df[1..], dtypes)
    else ColumnsOf(df[1..], dtypes)
  }

  /** `_numeric_columns`: booleans count. */
  function NumericColumns(df: Dataset): seq<string> {
    ColumnsOf(df, NumericDtypes)
  }

  /** The columns `select_dtypes(include=["number"])` keeps: booleans do not. */
  function NumberColumns(df: Dataset): seq<string> {
    ColumnsOf(df, {NumberDtype})
  }

  /** The columns of the given dtypes are exactly the names of the columns
      whose dtype is among them, in the dataset's column order. */
  lemma ColumnsOfSpec(df: Dataset, dtypes: set<Dtype>)
    ensures forall c :: c in ColumnsOf(df, dtypes) <==> exists i :: 0 <= i < |df| && df[i].name == c && df[i].dtype in dtypes
    ensures Subsequence(ColumnsOf(df, dtypes), Names(df))
  {
    forall c ensures c in ColumnsOf(df, dtypes) <==> exists i :: 0 <= i < |df| && df[i].name == c && df[i].dtype in dtypes {
      if c in ColumnsOf(df, dtypes) {
        ColumnsOfSound(df, dtypes, c);
      }
      if exists i :: 0 <= i < |df| && df[i].name == c && df[i].dtype in dtypes {
        var i :| 0 <= i < |df| && df[i].name == c && df[i].dtype in dtypes;
        ColumnsOfHas(df, dtypes, i);
      }
    }
    ColumnsOfInOrder(df, dtypes);
  }

  lemma {:induction false} ColumnsOfSound(df: Dataset, dtypes: set<Dtype>, c: string)
    requires c in ColumnsOf(df, dtypes)
    ensures exists i :: 0 <= i < |df| && df[i].name == c && df[i].dtype in dtypes
    decreases |df|
  {
    if !(df[0].dtype in dtypes && df[0].name == c) {
      ColumnsOfSound(df[1..], dtypes, c);
      var i :| 0 <= i < |df[1..]| && df[1..][i].name == c && df[1..][i].dtype in dtypes;
      assert df[i + 1] == df[1..][i];
    }
  }

  lemma {:induction false} ColumnsOfInOrder(df: Dataset, dtypes: set<Dtype>)
    ensures Subsequence(ColumnsOf(df, dtypes), Names(df))
    decreases |df|
  {
    if df != [] {
      ColumnsOfInOrder(df[1..], dtypes);
      assert Names(df) == [df[0].name] + Names(df[1..]);
      if df[0].dtype !in dtypes {
        SubsequenceCons(ColumnsOf(df[1..], dtypes), Names(df[1..]), df[0].name);
      }
    }
  }

  lemma {:induction false} ColumnsOfHas(df: Dataset, dtypes: set<Dtype>, i: nat)
    requires i < |df| && df[i].dtype in dtypes
    ensures df[i].name in ColumnsOf(df, dtypes)
    decreases |df|
  {
    if i > 0 {
      assert df[1..][i - 1] == df[i];
      ColumnsOfHas(df[1..], dtypes, i - 1);
    }
  }

  lemma {:induction false} ColumnsOfAreColumns(df: Dataset, dtypes: set<Dtype>)
    ensures forall c :: c in ColumnsOf(df, dtypes) ==> c in Names(df)
    decreases |df|
  {
    if df != [] {
      ColumnsOfAreColumns(df[1..], dtypes);
      assert Names(df) == [df[0].name] + Names(df[1..]);
    }
  }

  /** Every number column is a numeric column. */
  lemma NumbersAreNumeric(df: Dataset)
    ensures forall c :: c in NumberColumns(df) ==> c in NumericColumns(df)
  {
    ColumnsOfSpec(df, {NumberDtype});
    ColumnsOfSpec(df, NumericDtypes);
  }

  /** Two datasets whose columns agree on names and on membership in
      `dtypes` have the same columns of those dtypes. */
  lemma {:induction false} ColumnsOfFollow(a: Dataset, b: Dataset, dtypes: set<Dtype>)
    requires |a| == |b|
    requires forall i :: 0 <= i < |a| ==> a[i].name == b[i].name && (a[i].dtype in dtypes <==> b[i].dtype in dtypes)
    ensures ColumnsOf(a, dtypes) == ColumnsOf(b, dtypes)
    decreases |a|
  {
    if a != [] {
      ColumnsOfFollow(a[1..], b[1..], dtypes);
    }
  }

  /** A column of that name has a numeric dtype (booleans included). */
  predicate IsNumeric(df: Dataset, c: string) {
    c in NumericColumns(df)
  }

  /** A column of that name holds numbers (booleans excluded). */
  predicate IsNumber(df: Dataset, c: string) {
    c in NumberColumns(df)
  }

  /** The requested columns the dataset has, in the order requested. */
  function InDataset(df: Dataset, cols: seq<string>): seq<string> {
    var names := Names(df);
    Filter(cols, c => c in names)
  }

  /** The numeric ones among the given columns, in their order. */
  function NumericAmong(df: Dataset, cols: seq<string>): seq<string> {
    var numeric := NumericColumns(df);
    Filter(cols, c => c in numeric)
  }

  /** The columns an operation acts on: the requested columns the dataset
      has, in the order requested, and among those only the numeric ones. */
  function Selected(df: Dataset, op: Operation): (r: seq<string>)
    ensures forall c :: c in r <==> c in op.columns && c in Names(df) && IsNumeric(df, c)
    ensures Subsequence(r, op.columns)
  {
    var names, numeric := Names(df), NumericColumns(df);
    var present := (c: string) => c in names;
    var isNumeric := (c: string) => c in numeric;
    var both := (c: string) => c in names && c in numeric;
    FilterFilter(op.columns, present, isNumeric, both);
    FilterSubsequence(op.columns, both);
    NumericAmong(df, InDataset(df, op.columns))
  }

  /** The scaling an operation type stands for; any other type is none. */
  function ScalingOf(opType: Option<string>): (r: Option<Scaling>)
    ensures r == Some(Standardized) <==> opType == Some("standardization")
    ensures r == Some(Normalized) <==> opType == Some("normalization")
  {
    match opType
    case Some("standardization") => Some(Standardized)
    case Some("normalization") => Some(Normalized)
    case _ => None
  }

  /** `df[cols] = scaler.fit_transform(df[cols])`: the named numeric columns
      go through the scaler and come back as float columns (a boolean column
      among them becomes a number column); the others are left as they are. */
  function Scale(df: Dataset, cols: seq<string>, s: Scaling): (r: Dataset)
    ensures |r| == |df|
    ensures forall i :: 0 <= i < |df| ==> r[i].name == df[i].name
    ensures forall i :: 0 <= i < |df| ==>
      r[i] == if df[i].name in cols && df[i].Numeric() then Column(df[i].name, NumberDtype, df[i].scalings + [s]) else df[i]
  {
    seq(|df|, i requires 0 <= i < |df| =>
      if df[i].name in cols && df[i].Numeric() then Column(df[i].name, NumberDtype, df[i].scalings + [s]) else df[i])
  }

  /** Same columns, in the same order, with the same numeric ones. */
  predicate SameSchema(a: Dataset, b: Dataset) {
    |a| == |b| && forall i :: 0 <= i < |a| ==> a[i].name == b[i].name && a[i].Numeric() == b[i].Numeric()
  }

  /** One pass of the loop in `apply`. */
  function ApplyOp(df: Dataset, op: Operation): Dataset {
    var cols := Selected(df, op);
    if cols == [] then df
    else
      match ScalingOf(op.opType)
      case Some(s) => Scale(df, cols, s)
      case None => df
  }

  /** One operation keeps the names and which columns are numeric, and a
      column it changes is a requested numeric column that went through the
      operation's scaler and now holds numbers. */
  lemma ApplyOpEffect(df: Dataset, op: Operation)
    ensures var r := ApplyOp(df, op);
      && SameSchema(df, r)
      && forall i :: 0 <= i < |df| && r[i] != df[i] ==>
           ScalingOf(op.opType).Some? && df[i].Numeric() && df[i].name in op.columns
           && r[i].dtype == NumberDtype
           && r[i].scalings == df[i].scalings + [ScalingOf(op.opType).value]
  {
  }

  /** One pass of the loop as the source writes it: give up when no requested
      column exists, then when none of them is numeric, then dispatch on the
      type. */
  lemma ApplyOpSteps(df: Dataset, op: Operation)
    ensures var cols := InDataset(df, op.columns);
      var numericCols := NumericAmong(df, cols);
      ApplyOp(df, op) ==
        if cols == [] || numericCols == [] then df
        else if op.opType == Some("standardization") then Scale(df, numericCols, Standardized)
        else if op.opType == Some("normalization") then Scale(df, numericCols, Normalized)
        else df
  {
    assert InDataset(df, op.columns) == [] ==> Selected(df, op) == [];
  }

  /** The whole loop of `apply`, in list order. */
  function ApplyAll(df: Dataset, ops: seq<Operation>): Dataset
    decreases |ops|
  {
    if ops == [] then df else ApplyOp(ApplyAll(df, ops[..|ops| - 1]), ops[|ops| - 1])
  }

  lemma ApplyAllSnoc(df: Dataset, ops: seq<Operation>, k: nat)
    requires k < |ops|
    ensures ApplyAll(df, ops[..k + 1]) == ApplyOp(ApplyAll(df, ops[..k]), ops[k])
  {
    assert ops[..k + 1][..k] == ops[..k];
  }

  /** An operation of another type, or one left with no columns, changes nothing. */
  lemma NoOpCases(df: Dataset, op: Operation)
    requires ScalingOf(op.opType).None? || forall c :: c in op.columns ==> c !in Names(df) || !IsNumeric(df, c)
    ensures ApplyOp(df, op) == df
  {
    if ScalingOf(op.opType).Some? {
      var cols := Selected(df, op);
    }
  }

  /** A known operation scales exactly the requested numeric columns the
      dataset has, and those come out as number columns. */
  lemma {:induction false} ScalesExactlySelected(df: Dataset, op: Operation, i: nat)
    requires ScalingOf(op.opType).Some? && i < |df|
    ensures ApplyOp(df, op)[i] ==
      if df[i].Numeric() && df[i].name in op.columns
      then Column(df[i].name, NumberDtype, df[i].scalings + [ScalingOf(op.opType).value])
      else df[i]
  {
    var cols := Selected(df, op);
    ColumnsOfSpec(df, NumericDtypes);
    if df[i].Numeric() && df[i].name in op.columns {
      assert df[i].name in Names(df) && IsNumeric(df, df[i].name);
      assert df[i].name in cols;
    }
  }

  /** The loop never renames, reorders or drops a column and keeps which
      columns are numeric; the only dtype it changes is a scaled boolean
      column, which becomes a number column. */
  lemma {:induction false} ApplyAllKeepsSchema(df: Dataset, ops: seq<Operation>)
    ensures var r := ApplyAll(df, ops);
      && SameSchema(df, r)
      && forall i :: 0 <= i < |df| ==> r[i].dtype == df[i].dtype || (df[i].dtype == BoolDtype && r[i].dtype == NumberDtype)
    decreases |ops|
  {
    if ops != [] {
      ApplyAllKeepsSchema(df, ops[..|ops| - 1]);
      ApplyOpEffect(ApplyAll(df, ops[..|ops| - 1]), ops[|ops| - 1]);
    }
  }

  /** A non-numeric column comes out of `apply` exactly as it went in. */
  lemma {:induction false} NonNumericUntouched(df: Dataset, ops: seq<Operation>, i: nat)
    requires i < |df| && !df[i].Numeric()
    ensures i < |ApplyAll(df, ops)| && ApplyAll(df, ops)[i] == df[i]
    decreases |ops|
  {
    if ops != [] {
      NonNumericUntouched(df, ops[..|ops| - 1], i);
      ApplyOpEffect(ApplyAll(df, ops[..|ops| - 1]), ops[|ops| - 1]);
    }
  }

  /** Operations apply in list order: a list run after another is the same
      as their concatenation. */
  lemma {:induction false} ApplyAllAppend(df: Dataset, a: seq<Operation>, b: seq<Operation>)
    ensures ApplyAll(df, a + b) == ApplyAll(ApplyAll(df, a), b)
    decreases |b|
  {
    if b == [] {
      assert a + b == a;
    } else {
      assert (a + b)[..|a + b| - 1] == a + b[..|b| - 1];
      ApplyAllAppend(df, a, b[..|b| - 1]);
    }
  }

  /** The summary `get_stats` returns: the columns it was asked about and the
      number columns among them that `describe` covers. */
  datatype Stats = Stats(columns: seq<string>, described: seq<string>)

  /** `get_stats`: no columns (None or empty) means the numeric columns
      (booleans included); `describe` then sees only the number columns among
      them and raises when there is none. */
  function GetStats(df: Dataset, columns: Option<seq<string>>): (r: Result<Stats, ServiceError>)
    ensures var cols := if columns.None? || columns.value == [] then NumericColumns(df) else columns.value;
      && (r.Ok? ==> r.value.columns == cols
                    && forall c :: c in r.value.described <==> c in cols && IsNumber(df, c))
      && (r.Err? && r.error.MissingColumns? <==> exists c :: c in cols && c !in Names(df))
      && (r == Err(NothingToDescribe) <==>
            (forall c :: c in cols ==> c in Names(df)) && forall c :: c in cols ==> !IsNumber(df, c))
  {
    var names, numeric, number := Names(df), NumericColumns(df), NumberColumns(df);
    var cols := if columns.None? || columns.value == [] then numeric else columns.value;
    var missing := Filter(cols, c => c !in names);
    var described := Filter(cols, c => c in number);
    if missing != [] then
      assert missing[0] in cols;
      Err(MissingColumns(missing))
    else if described == [] then Err(NothingToDescribe)
    else
      assert described[0] in described;
      Ok(Stats(cols, described))
  }

  /** With a number column and no columns asked for, the summary lists the
      numeric columns and describes exactly the number columns. */
  lemma StatsDefaultToNumeric(df: Dataset, columns: Option<seq<string>>)
    requires columns.None? || columns.value == []
    requires exists i :: 0 <= i < |df| && df[i].dtype == NumberDtype
    ensures GetStats(df, columns).Ok?
    ensures GetStats(df, columns).value.columns == NumericColumns(df)
    ensures forall c :: c in GetStats(df, columns).value.described <==> c in NumberColumns(df)
  {
    var i :| 0 <= i < |df| && df[i].dtype == NumberDtype;
    ColumnsOfHas(df, {NumberDtype}, i);
    ColumnsOfAreColumns(df, NumericDtypes);
    NumbersAreNumeric(df);
    var names, cols := Names(df), NumericColumns(df);
    FilterNone(cols, c => c !in names);
    assert df[i].name in NumericColumns(df);
  }

  /** A dataset whose numeric columns are all boolean has nothing to describe:
      the default summary raises. */
  lemma NoNumberColumnRaises(df: Dataset, columns: Option<seq<string>>)
    requires columns.None? || columns.value == []
    requires forall i :: 0 <= i < |df| ==> df[i].dtype != NumberDtype
    ensures GetStats(df, columns) == Err(NothingToDescribe)
  {
    ColumnsOfAreColumns(df, NumericDtypes);
    ColumnsOfSpec(df, {NumberDtype});
  }

  /** The default summary survives a change that keeps the names and the
      numeric columns and leaves every number column a number column: it
      lists the same columns and describes at least those it described. */
  lemma DefaultStatsFollowSchema(a: Dataset, b: Dataset)
    requires SameSchema(a, b)
    requires forall i :: 0 <= i < |a| && a[i].dtype == NumberDtype ==> b[i].dtype == NumberDtype
    ensures GetStats(a, None).Ok? ==>
      && GetStats(b, None).Ok?
      && GetStats(b, None).value.columns == GetStats(a, None).value.columns
      && forall c :: c in GetStats(a, None).value.described ==> c in GetStats(b, None).value.described
  {
    assert Names(a) == Names(b);
    ColumnsOfFollow(a, b, NumericDtypes);
    NumberColumnsGrow(a, b);
  }

  lemma NumberColumnsGrow(a: Dataset, b: Dataset)
    requires SameSchema(a, b)
    requires forall i :: 0 <= i < |a| && a[i].dtype == NumberDtype ==> b[i].dtype == NumberDtype
    ensures forall c :: IsNumber(a, c) ==> IsNumber(b, c)
  {
    forall c | IsNumber(a, c) ensures IsNumber(b, c) {
      ColumnsOfSound(a, {NumberDtype}, c);
      var i :| 0 <= i < |a| && a[i].name == c && a[i].dtype in {NumberDtype};
      ColumnsOfHas(b, {NumberDtype}, i);
    }
  }

  /** The default summary of `apply`'s result exists whenever the input's
      does, over the same columns. */
  lemma ApplyAllKeepsStats(df: Dataset, ops: seq<Operation>)
    ensures GetStats(df, None).Ok? ==>
      && GetStats(ApplyAll(df, ops), None).Ok?
      && GetStats(ApplyAll(df, ops), None).value.columns == GetStats(df, None).value.columns
  {
    ApplyAllKeepsSchema(df, ops);
    DefaultStatsFollowSchema(df, ApplyAll(df, ops));
  }

  /** Scaling a boolean column turns it into a number column, so the summary
      after `apply` can describe more than the one before it. */
  lemma ScaledBoolIsDescribed()
    ensures var df := [Column("x", NumberDtype, []), Column("flag", BoolDtype, [])];
      var r := ApplyAll(df, [Operation(Some("standardization"), ["flag"])]);
      && GetStats(df, None) == Ok(Stats(["x", "flag"], ["x"]))
      && GetStats(r, None) == Ok(Stats(["x", "flag"], ["x", "flag"]))
  {
    var df := [Column("x", NumberDtype, []), Column("flag", BoolDtype, [])];
    var op := Operation(Some("standardization"), ["flag"]);
    assert df[1..][1..] == [];
    assert NumericColumns(df) == ["x", "flag"];
    assert Selected(df, op) == ["flag"];
    var r := [Column("x", NumberDtype, []), Column("flag", NumberDtype, [Standardized])];
    var scaled := Scale(df, ["flag"], Standardized);
    assert "x" !in ["flag"];
    assert scaled[0] == r[0] && scaled[1] == r[1];
    assert ApplyAll(df, [op]) == ApplyOp(df, op) == scaled == r;
    StatsOfTwoColumns(df);
    StatsOfTwoColumns(r);
  }

  /** The default summary of a dataset with columns "x" and "flag". */
  lemma StatsOfTwoColumns(df: Dataset)
    requires |df| == 2 && df[0].name == "x" && df[1].name == "flag"
    requires df[0].dtype == NumberDtype && df[1].Numeric()
    ensures GetStats(df, None) == Ok(Stats(["x", "flag"], if df[1].dtype == NumberDtype then ["x", "flag"] else ["x"]))
  {
    var tail := df[1..];
    assert tail[0] == df[1] && tail[1..] == [];
    assert ColumnsOf(tail, NumericDtypes) == ["flag"];
    assert Names(df) == NumericColumns(df) == ["x", "flag"];
    if df[1].dtype == NumberDtype {
      assert ColumnsOf(tail, {NumberDtype}) == ["flag"];
    } else {
      assert ColumnsOf(tail, {NumberDtype}) == [];
    }
    assert NumberColumns(df) == if df[1].dtype == NumberDtype then ["x", "flag"] else ["x"];
  }

  /** What `apply` answers: the new dataset's id and the summaries before
      and after. */
  datatype Applied = Applied(processedId: string, before: Stats, after: Stats)

  /** The dataset registry of the in-memory store. */
  class DatasetStore {
    var datasets: map<string, Dataset>

    constructor ()
      ensures datasets == map[]
    {
      datasets := map[];
    }

    /** `apply`: run the operations in order on a copy of the dataset and
        store the result under `processedId`, a fresh id (the source draws a
        random one). The summary of the input is taken first, so an unknown
        id or a dataset with no number column raises before anything is
        stored. */
    method Apply(datasetId: string, operations: seq<Operation>, processedId: string)
      returns (r: Result<Applied, ServiceError>)
      requires processedId !in datasets
      modifies this`datasets
      ensures datasetId !in old(datasets) ==> r == Err(UnknownDataset(datasetId)) && datasets == old(datasets)
      ensures datasetId in old(datasets) && GetStats(old(datasets)[datasetId], None).Err? ==>
        r == Err(GetStats(old(datasets)[datasetId], None).error) && datasets == old(datasets)
      ensures datasetId in old(datasets) && GetStats(old(datasets)[datasetId], None).Ok? ==>
        var result := ApplyAll(old(datasets)[datasetId], operations);
        && datasets == old(datasets)[processedId := result]
        && r.Ok? && r.value.processedId == processedId
        && r.value.before == GetStats(old(datasets)[datasetId], None).value
        && GetStats(result, None) == Ok(r.value.after)
    {
      if datasetId !in datasets {
        return Err(UnknownDataset(datasetId));
      }
      var df := datasets[datasetId];
      ghost var input := df;
      var before := GetStats(df, None);
      if before.Err? {
        return Err(before.error);
      }
      for k := 0 to |operations|
        invariant df == ApplyAll(input, operations[..k])
        invariant datasets == old(datasets)
      {
        ApplyAllSnoc(input, operations, k);
        var op := operations[k];
        ApplyOpSteps(df, op);
        var cols := InDataset(df, op.columns);
        if cols == [] {
          continue;
        }
        var numericCols := NumericAmong(df, cols);
        if numericCols == [] {
          continue;
        }
        ghost var prev := df;
        if op.opType == Some("standardization") {
          df := Scale(df, numericCols, Standardized);
        } else if op.opType == Some("normalization") {
          df := Scale(df, numericCols, Normalized);
        }
        assert df == ApplyOp(prev, op);
      }
      assert operations[..|operations|] == operations;
      assert df == ApplyAll(input, operations);
      // The summary of the stored result cannot raise: the loop kept the
      // columns and left every number column one, so it describes at least
      // what the first summary did.
      ApplyAllKeepsStats(input, operations);
      datasets := datasets[processedId := df];
      var after := GetStats(df, None);
      r := Ok(Applied(processedId, before.value, after.value));
    }
  }
}
