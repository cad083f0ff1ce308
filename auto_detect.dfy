/** The property detector `DataAutoDetecter` (anonymizer/auto_detect.py):
    it refuses a data frame whose column names repeat, guesses a column
    type for every column from its dtype and its number of distinct values,
    and builds the properties frame in which every column starts as
    information type "Others" and sensitivity "Non-Sensitive". */
module AutoDetect {
  import opened Common

  /** The pandas dtypes of a column, as far as the three dtype tests the
      detector uses can tell them apart. */
  datatype DType =
    | Int64 | Float64 | Bool | ObjectDType | Datetime64 | DatetimeTZ | CategoryDType | StringDType

  /** `pd.api.types.is_numeric_dtype`: integers, floats and booleans. */
  predicate IsNumericDtype(d: DType)
  {
    d == Int64 || d == Float64 || d == Bool
  }

  /** `pd.api.types.is_object_dtype`. */
  predicate IsObjectDtype(d: DType)
  {
    d == ObjectDType
  }

  /** `pd.api.types.is_datetime64_dtype`: naive timestamps only; a
      time-zone-aware column does not pass. */
  predicate IsDatetime64Dtype(d: DType)
  {
    d == Datetime64
  }

  /** One value of a column. */
  datatype Cell = Missing | Int(i: int) | Real(r: real) | Text(s: string) | Timestamp(nanos: int) | Flag(b: bool)

  /** A named column: a pandas Series. */
  datatype Series = Series(name: string, dtype: DType, values: seq<Cell>)

  /** A data frame: its columns, in order. */
  datatype DataFrame = DataFrame(series: seq<Series>)

  /** `df.columns`. */
  function ColumnNames(df: DataFrame): (names: seq<string>)
    ensures |names| == |df.series|
    ensures forall i :: 0 <= i < |names| ==> names[i] == df.series[i].name
  {
    seq(|df.series|, i requires 0 <= i < |df.series| => df.series[i].name)
  }

  /** The approved values of `data_types`, `information_types` and
      `sensitivity_types`. The last is one string holding four names
      separated by commas, not a list of four names. */
  const DataTypes: seq<string> := ["Continous", "Categorical", "Datetime"]
  const InformationTypes: seq<string> := ["NRIC", "Email", "Others"]
  const SensitivityTypes: seq<string> := ["Direct Identifier, Indirect Identifier, Sensitive, Non-Sensitive"]

  /** The value Python's `==` and `hash` see, which is what `unique()`
      compares on an object column: `True == 1`, `False == 0`, and a float
      with an integral value equals that integer. */
  function PyValue(c: Cell): Cell
  {
    match c
    case Flag(b) => Int(if b then 1 else 0)
    case Real(x) => if x == x.Floor as real then Int(x.Floor) else c
    case _ => c
  }

  /** The values of `column.unique()`, up to Python equality. */
  function DistinctValues(values: seq<Cell>): set<Cell>
  {
    set c | c in values :: PyValue(c)
  }

  /** `len(column.unique()) <= 0.4 * len(column)`, in integers. */
  predicate FewDistinct(values: seq<Cell>)
  {
    5 * |DistinctValues(values)| <= 2 * |values|
  }

  /** `__detect_column_type`. The dtype tests are tried in order, but the
      three dtype families are disjoint, so each label has a direct
      characterisation: numeric columns are "Continous" whatever their
      values, object columns with few distinct values are "Categorical",
      naive datetime columns are always "Datetime", and everything else,
      including an object column with many distinct values, is "Other". */
  function DetectColumnType(column: Series): (r: string)
    ensures r in {"Continous", "Categorical", "Datetime", "Other"}
    ensures r == "Continous" <==> IsNumericDtype(column.dtype)
    ensures r == "Categorical" <==> IsObjectDtype(column.dtype) && FewDistinct(column.values)
    ensures r == "Datetime" <==> IsDatetime64Dtype(column.dtype)
  {
    if IsNumericDtype(column.dtype) then "Continous"
    else if FewDistinct(column.values) && IsObjectDtype(column.dtype) then "Categorical"
    else if IsDatetime64Dtype(column.dtype) then "Datetime"
    else "Other"
  }

  /** An object column without rows is "Categorical": no distinct values is
      at most 0.4 times no rows. */
  lemma EmptyObjectColumnIsCategorical(name: string)
    ensures DetectColumnType(Series(name, ObjectDType, [])) == "Categorical"
  {
    assert DistinctValues([]) == {};
  }

  /** Equal numbers of different Python types are one value to `unique()`:
      the object column `[1, True, 1.0, 1, 1]` has a single distinct value
      and is "Categorical", while `[1, 2, 3, 4, 5]` stored as objects is
      not. */
  lemma PythonEqualValuesCountOnce()
    ensures DetectColumnType(Series("c", ObjectDType, [Int(1), Flag(true), Real(1.0), Int(1), Int(1)])) == "Categorical"
    ensures DetectColumnType(Series("c", ObjectDType, [Int(1), Int(2), Int(3), Int(4), Int(5)])) == "Other"
  {
    var mixed := [Int(1), Flag(true), Real(1.0), Int(1), Int(1)];
    assert PyValue(Real(1.0)) == Int(1);
    assert forall c | c in mixed :: PyValue(c) == Int(1);
    assert DistinctValues(mixed) == {Int(1)};
    var distinct := [Int(1), Int(2), Int(3), Int(4), Int(5)];
    var five := {Int(1), Int(2), Int(3), Int(4), Int(5)};
    forall x | x in DistinctValues(distinct) ensures x in five {
      var c :| c in distinct && PyValue(c) == x;
    }
    forall y | y in five ensures y in DistinctValues(distinct) {
      assert y in distinct && PyValue(y) == y;
    }
    assert DistinctValues(distinct) == five;
  }

  /** A detected label is an approved column type unless it is "Other". */
  lemma DetectedLabelApproved(column: Series)
    ensures DetectColumnType(column) in DataTypes <==> DetectColumnType(column) != "Other"
  {
  }

  /** The three columns of the properties frame. */
  datatype PropertyColumn = ColumnTypeColumn | InformationTypeColumn | SensitivityTypeColumn

  /** The properties frame: a data frame indexed by column name with the
      columns "Column Type", "Information Type" and "Sensitivity Type",
      each held as a sequence of strings in index order. */
  class PropertiesFrame {
    const index: seq<string>
    var columnType: seq<string>
    var informationType: seq<string>
    var sensitivityType: seq<string>

    ghost predicate Valid()
      reads this
    {
      && NoDuplicates(index)
      && |columnType| == |index|
      && |informationType| == |index|
      && |sensitivityType| == |index|
    }

    /** `pd.DataFrame(names, columns=['Column Name']).set_index("Column Name")`:
        an index and, as yet, no columns. */
    constructor (names: seq<string>)
      ensures index == names
      ensures columnType == [] && informationType == [] && sensitivityType == []
    {
      index := names;
      columnType, informationType, sensitivityType := [], [], [];
    }

    /** `frame.loc[name, column]`. */
    function Loc(name: string, column: PropertyColumn): string
      reads this
      requires Valid() && name in index
    {
      var i := IndexOf(index, name);
      match column
      case ColumnTypeColumn => columnType[i]
      case InformationTypeColumn => informationType[i]
      case SensitivityTypeColumn => sensitivityType[i]
    }

    /** `frame.loc[name, column] = value` for a name already in the index:
        that one cell takes the value and every other cell keeps its own. */
    method SetLoc(name: string, column: PropertyColumn, value: string)
      requires Valid() && name in index
      modifies this
      ensures Valid()
      ensures Loc(name, column) == value
      ensures forall n, c :: n in index && (n != name || c != column) ==> Loc(n, c) == old(Loc(n, c))
    {
      var i := IndexOf(index, name);
      match column
      case ColumnTypeColumn => columnType := columnType[i := value];
      case InformationTypeColumn => informationType := informationType[i := value];
      case SensitivityTypeColumn => sensitivityType := sensitivityType[i := value];
    }
  }

  /** `DataAutoDetecter`: the data frame it inspects and the properties
      frame it last built. */
  class DataAutoDetecter {
    const data: DataFrame
    var propertiesFrame: PropertiesFrame?

    /** Column names are unique: what `__init__` checks before it keeps
        the frame. */
    ghost predicate Valid()
    {
      NoDuplicates(ColumnNames(data))
    }

    constructor (df: DataFrame)
      requires NoDuplicates(ColumnNames(df))
      ensures Valid() && data == df && propertiesFrame == null
    {
      data := df;
      propertiesFrame := null;
    }

    /** `DataAutoDetecter(df)`: raises when `len(df.columns.unique()) !=
        len(df.columns)`, that is, exactly when some column name repeats. */
    static method New(df: DataFrame) returns (r: Result<DataAutoDetecter>)
      ensures r.Failure? <==> !NoDuplicates(ColumnNames(df))
      ensures r.Failure? ==> r.error == DuplicatedColumnNames
      ensures r.Success? ==> fresh(r.value) && r.value.Valid() && r.value.data == df
      ensures r.Success? ==> r.value.propertiesFrame == null
    {
      var names := ColumnNames(df);
      DistinctCount(names);
      if |Elements(names)| != |names| {
        return Failure(DuplicatedColumnNames);
      }
      var detector := new DataAutoDetecter(df);
      return Success(detector);
    }

    /** `__detect_all_column_type`: one label per column, in column order. */
    method DetectAllColumnType() returns (colTypes: seq<string>)
      ensures |colTypes| == |data.series|
      ensures forall i :: 0 <= i < |colTypes| ==> colTypes[i] == DetectColumnType(data.series[i])
    {
      colTypes := [];
      for i := 0 to |data.series|
        invariant |colTypes| == i
        invariant forall k :: 0 <= k < i ==> colTypes[k] == DetectColumnType(data.series[k])
      {
        colTypes := colTypes + [DetectColumnType(data.series[i])];
      }
    }

    /** `__detect_information_type`: "Others" for every column. */
    function DetectInformationType(): (r: seq<string>)
      ensures |r| == |data.series|
      ensures forall i :: 0 <= i < |r| ==> r[i] == "Others"
    {
      seq(|data.series|, _ => "Others")
    }

    /** `__detect_senesitivity_type`: "Non-Sensitive" for every column. */
    function DetectSensitivityType(): (r: seq<string>)
      ensures |r| == |data.series|
      ensures forall i :: 0 <= i < |r| ==> r[i] == "Non-Sensitive"
    {
      seq(|data.series|, _ => "Non-Sensitive")
    }

    /** `construct_column_mapper`: a new properties frame, kept and
        returned, with one row per column in column order holding the
        detected column type, "Others" and "Non-Sensitive". */
    method ConstructColumnMapper() returns (frame: PropertiesFrame)
      requires Valid()
      modifies this
      ensures fresh(frame) && propertiesFrame == frame && frame.Valid()
      ensures frame.index == ColumnNames(data)
      ensures forall i :: 0 <= i < |data.series| ==>
        && frame.Loc(data.series[i].name, ColumnTypeColumn) == DetectColumnType(data.series[i])
        && frame.Loc(data.series[i].name, InformationTypeColumn) == "Others"
        && frame.Loc(data.series[i].name, SensitivityTypeColumn) == "Non-Sensitive"
    {
      var columnTypes := DetectAllColumnType();
      var informationTypes := DetectInformationType();
      var sensitivityTypes := DetectSensitivityType();
      frame := new PropertiesFrame(ColumnNames(data));
      frame.columnType := columnTypes;
      frame.informationType := informationTypes;
      frame.sensitivityType := sensitivityTypes;
      propertiesFrame := frame;
      forall i | 0 <= i < |data.series| ensures IndexOf(frame.index, data.series[i].name) == i {
        var j := IndexOf(frame.index, data.series[i].name);
        assert frame.index[j] == frame.index[i];
      }
    }

    /** `list_approved_column_types`. */
    function ListApprovedColumnTypes(): seq<string>
    {
      DataTypes
    }

    /** `list_approved_information_types`. */
    function ListApprovedInformationTypes(): seq<string>
    {
      InformationTypes
    }

    /** `list_approved_sensitivity_types`. */
    function ListApprovedSensitivityTypes(): seq<string>
    {
      SensitivityTypes
    }
  }

  /** The approved lists are fixed. The column types use the detector's
      spelling "Continous" and lack its label "Other" as well as
      "Continuous" and "Unique/Sparse"; the sensitivity list has a single
      entry, which none of the four sensitivity names equals. */
  lemma ApprovedLists(d: DataAutoDetecter)
    ensures d.ListApprovedColumnTypes() == ["Continous", "Categorical", "Datetime"]
    ensures d.ListApprovedInformationTypes() == ["NRIC", "Email", "Others"]
    ensures forall t :: t in ["Continuous", "Other", "Unique/Sparse"] ==> t !in d.ListApprovedColumnTypes()
    ensures |d.ListApprovedSensitivityTypes()| == 1
    ensures forall s :: s in ["Direct Identifier", "Indirect Identifier", "Sensitive", "Non-Sensitive"] ==>
      s !in d.ListApprovedSensitivityTypes()
  {
  }
}
