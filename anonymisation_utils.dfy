/** `check_column_type` of anonymisation_utils.py: a standalone copy of the
    detector's column-type decision that spells the numeric label
    "Continuous". */
module AnonymisationUtils {
  import opened AutoDetect

  /** The same decision, tried in the same order: numeric dtype, then an
      object column with at most 0.4 distinct values per row, then a naive
      datetime dtype, else "Other". */
  function CheckColumnType(column: Series): (r: string)
    ensures r in {"Continuous", "Categorical", "Datetime", "Other"}
    ensures r == "Continuous" <==> IsNumericDtype(column.dtype)
    ensures r == "Categorical" <==> IsObjectDtype(column.dtype) && FewDistinct(column.values)
    ensures r == "Datetime" <==> IsDatetime64Dtype(column.dtype)
  {
    if IsNumericDtype(column.dtype) then "Continuous"
    else if FewDistinct(column.values) && IsObjectDtype(column.dtype) then "Categorical"
    else if IsDatetime64Dtype(column.dtype) then "Datetime"
    else "Other"
  }

  /** The copy and the detector agree on every column, up to the spelling
      of the numeric label. */
  lemma AgreesWithDetector(column: Series)
    ensures CheckColumnType(column) ==
      if DetectColumnType(column) == "Continous" then "Continuous" else DetectColumnType(column)
  {
  }
}
