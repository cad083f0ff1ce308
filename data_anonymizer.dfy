/** The controller `DataAnonymizer` (anonymizer/data_anonymizer.py): it
    builds the properties frame with the detector and lets a caller
    overwrite one property of one column after checking the column name and
    the new value. The frame it holds is the very object the detector kept,
    so an override is seen through both. */
module DataAnonymizer {
  import opened Common
  import opened AutoDetect
  import Masker

  /** The `property_type` strings `change_property` understands. */
  function PropertyColumnOf(propertyType: string): Option<PropertyColumn>
  {
    if propertyType == "column_type" then Some(ColumnTypeColumn)
    else if propertyType == "information_type" then Some(InformationTypeColumn)
    else if propertyType == "sensitivity_type" then Some(SensitivityTypeColumn)
    else None
  }

  /** The approved list each property is checked against. */
  function ApprovedValues(column: PropertyColumn): seq<string>
  {
    match column
    case ColumnTypeColumn => DataTypes
    case InformationTypeColumn => InformationTypes
    case SensitivityTypeColumn => SensitivityTypes
  }

  /** The checks of `change_property`, in the order the code makes them:
      the column name first, then the property kind with its approved list.
      An override is accepted exactly when the column exists, the kind is
      known and the value is approved for that kind. */
  function ValidateChange(columns: seq<string>, colname: string, propertyType: string, newProperty: string)
    : (r: Result<PropertyColumn>)
    ensures r.Success? <==>
      colname in columns && PropertyColumnOf(propertyType).Some? &&
      newProperty in ApprovedValues(PropertyColumnOf(propertyType).value)
    ensures r.Success? ==> PropertyColumnOf(propertyType) == Some(r.value)
    ensures colname !in columns ==> r == Failure(UnknownColumnName)
    ensures colname in columns && PropertyColumnOf(propertyType).None? ==> r == Failure(UnknownPropertyType)
  {
    if colname !in columns then Failure(UnknownColumnName)
    else if propertyType == "column_type" then
      if newProperty !in DataTypes then Failure(UnknownColumnType(DataTypes)) else Success(ColumnTypeColumn)
    else if propertyType == "information_type" then
      if newProperty !in InformationTypes then Failure(UnknownInformationType(InformationTypes))
      else Success(InformationTypeColumn)
    else if propertyType == "sensitivity_type" then
      if newProperty !in SensitivityTypes then Failure(UnknownSensitivityType(SensitivityTypes))
      else Success(SensitivityTypeColumn)
    else Failure(UnknownPropertyType)
  }

  /** No real sensitivity name can be set: each is refused, and only the
      comma-joined string passes. */
  lemma SensitivityOverrideRejectsEveryName(columns: seq<string>, colname: string, newProperty: string)
    requires colname in columns
    ensures ValidateChange(columns, colname, "sensitivity_type", newProperty).Success? <==>
      newProperty == "Direct Identifier, Indirect Identifier, Sensitive, Non-Sensitive"
    ensures newProperty in ["Direct Identifier", "Indirect Identifier", "Sensitive", "Non-Sensitive"] ==>
      ValidateChange(columns, colname, "sensitivity_type", newProperty) == Failure(UnknownSensitivityType(SensitivityTypes))
  {
  }

  /** Setting the information type of a known column to "NRIC" is accepted
      as a change of the "Information Type" cell alone: by the contract of
      `ChangeProperty`, sensitivity and column type stay as they were. */
  lemma NricOverrideHasNoCascade(columns: seq<string>, colname: string)
    requires colname in columns
    ensures ValidateChange(columns, colname, "information_type", "NRIC") == Success(InformationTypeColumn)
  {
  }

  /** A column-type override accepts "Continous", "Categorical" and
      "Datetime" and nothing else: not the catalog's "Continuous" or
      "Unique/Sparse", nor the detector's own "Other". */
  lemma ColumnTypeOverrideValues(columns: seq<string>, colname: string, newProperty: string)
    requires colname in columns
    ensures ValidateChange(columns, colname, "column_type", newProperty).Success? <==>
      newProperty in {"Continous", "Categorical", "Datetime"}
  {
  }

  /** The detector's labels for numeric columns and for unclassified
      columns are not keys of the catalog's column-type table, so asking for
      a recommendation for such a column, unless it is a direct identifier,
      raises `KeyError`. */
  lemma DetectedLabelsMissFromCatalog(column: Series, info: string, sens: string)
    requires info in Masker.InformationTypeMaskMapper && sens in Masker.SensitivityTypeMaskMapper
    requires sens != Masker.DirectIdentifier
    requires IsNumericDtype(column.dtype) || DetectColumnType(column) == "Other"
    ensures Masker.Recommendation(info, sens, DetectColumnType(column)) ==
      Failure(KeyError(DetectColumnType(column)))
  {
  }

  /** `DataAnonymizer`: the detector, the data frame and the properties
      frame. The `Masker` it also creates is not used by any operation of
      the class and is not a field here. */
  class DataAnonymizer {
    const autoDetector: DataAutoDetecter
    const data: DataFrame
    var propertiesFrame: PropertiesFrame

    /** The frame is the detector's own, indexed by the frame's column
        names, which are unique. */
    ghost predicate Valid()
      reads this, autoDetector, propertiesFrame
    {
      && autoDetector.Valid()
      && autoDetector.data == data
      && autoDetector.propertiesFrame == propertiesFrame
      && propertiesFrame.Valid()
      && propertiesFrame.index == ColumnNames(data)
    }

    /** `__init__` once the detector exists: build the properties frame
        with it and keep that frame. */
    constructor (detector: DataAutoDetecter)
      requires detector.Valid()
      modifies detector
      ensures Valid() && autoDetector == detector && data == detector.data
      ensures fresh(propertiesFrame)
      ensures forall i :: 0 <= i < |data.series| ==>
        && propertiesFrame.Loc(data.series[i].name, ColumnTypeColumn) == DetectColumnType(data.series[i])
        && propertiesFrame.Loc(data.series[i].name, InformationTypeColumn) == "Others"
        && propertiesFrame.Loc(data.series[i].name, SensitivityTypeColumn) == "Non-Sensitive"
    {
      var frame := detector.ConstructColumnMapper();
      autoDetector := detector;
      data := detector.data;
      propertiesFrame := frame;
    }

    /** `DataAnonymizer(df)`: raises when the detector refuses the frame,
        that is, when a column name repeats; otherwise the properties
        frame has exactly the frame's columns as its index, with their
        detected defaults. */
    static method New(df: DataFrame) returns (r: Result<DataAnonymizer>)
      ensures r.Failure? <==> !NoDuplicates(ColumnNames(df))
      ensures r.Failure? ==> r.error == DuplicatedColumnNames
      ensures r.Success? ==> fresh(r.value) && r.value.Valid() && r.value.data == df
      ensures r.Success? ==> r.value.propertiesFrame.index == ColumnNames(df)
      ensures r.Success? ==> forall i :: 0 <= i < |df.series| ==>
        && r.value.propertiesFrame.Loc(df.series[i].name, ColumnTypeColumn) == DetectColumnType(df.series[i])
        && r.value.propertiesFrame.Loc(df.series[i].name, InformationTypeColumn) == "Others"
        && r.value.propertiesFrame.Loc(df.series[i].name, SensitivityTypeColumn) == "Non-Sensitive"
    {
      var detector := DataAutoDetecter.New(df);
      if detector.Failure? {
        return Failure(detector.error);
      }
      var anonymizer := new DataAnonymizer(detector.value);
      return Success(anonymizer);
    }

    /** `change_property`: on a refused call the frame is untouched and the
        error is the first failed check; on success exactly the cell
        (`colname`, chosen property) takes `newProperty`, every other cell
        of every column keeps its value, and the frame is returned. */
    method ChangeProperty(colname: string, propertyType: string, newProperty: string)
      returns (r: Result<PropertiesFrame>)
      requires Valid()
      modifies propertiesFrame
      ensures Valid()
      ensures var v := ValidateChange(ColumnNames(data), colname, propertyType, newProperty);
        && (r.Failure? <==> v.Failure?)
        && (r.Failure? ==> r.error == v.error)
      ensures r.Failure? ==> unchanged(propertiesFrame)
      ensures r.Success? ==> r.value == propertiesFrame
      ensures r.Success? ==>
        var column := ValidateChange(ColumnNames(data), colname, propertyType, newProperty).value;
        forall n, c :: n in propertiesFrame.index ==>
          propertiesFrame.Loc(n, c) == if n == colname && c == column then newProperty else old(propertiesFrame.Loc(n, c))
    {
      if colname !in ColumnNames(data) {
        return Failure(UnknownColumnName);
      }
      if propertyType == "column_type" {
        var approved := autoDetector.ListApprovedColumnTypes();
        if newProperty !in approved {
          return Failure(UnknownColumnType(approved));
        }
        propertiesFrame.SetLoc(colname, ColumnTypeColumn, newProperty);
        return Success(propertiesFrame);
      } else if propertyType == "information_type" {
        var approved := autoDetector.ListApprovedInformationTypes();
        if newProperty !in approved {
          return Failure(UnknownInformationType(approved));
        }
        propertiesFrame.SetLoc(colname, InformationTypeColumn, newProperty);
        return Success(propertiesFrame);
      } else if propertyType == "sensitivity_type" {
        var approved := autoDetector.ListApprovedSensitivityTypes();
        if newProperty !in approved {
          return Failure(UnknownSensitivityType(approved));
        }
        propertiesFrame.SetLoc(colname, SensitivityTypeColumn, newProperty);
        return Success(propertiesFrame);
      } else {
        return Failure(UnknownPropertyType);
      }
    }
  }

  /** `change_property(colname, 'information_type', 'NRIC')` on a known
      column: accepted, the information type becomes "NRIC", and the same
      column's sensitivity and column type keep their values; no
      sensitivity is raised with it. */
  method OverrideWithNric(anonymizer: DataAnonymizer, colname: string) returns (r: Result<PropertiesFrame>)
    requires anonymizer.Valid() && colname in ColumnNames(anonymizer.data)
    modifies anonymizer.propertiesFrame
    ensures anonymizer.Valid() && r == Success(anonymizer.propertiesFrame)
    ensures anonymizer.propertiesFrame.Loc(colname, InformationTypeColumn) == "NRIC"
    ensures anonymizer.propertiesFrame.Loc(colname, SensitivityTypeColumn) ==
      old(anonymizer.propertiesFrame.Loc(colname, SensitivityTypeColumn))
    ensures anonymizer.propertiesFrame.Loc(colname, ColumnTypeColumn) ==
      old(anonymizer.propertiesFrame.Loc(colname, ColumnTypeColumn))
  {
    NricOverrideHasNoCascade(ColumnNames(anonymizer.data), colname);
    r := anonymizer.ChangeProperty(colname, "information_type", "NRIC");
  }
}
