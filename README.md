# Column anonymiser of SynPiper, in Dafny

This project models the column-anonymisation subsystem of SynPiper. The
subsystem has four parts:

- **Property detector** (`DataAutoDetecter`). It refuses a data frame whose column names repeat. It labels every column "Continous", "Categorical", "Datetime" or "Other" from its dtype and its share of distinct values. It builds a properties frame in which every column starts as information type "Others" and sensitivity "Non-Sensitive".
- **Masking catalog** (`Masker`). A registry maps 13 transformer names to column transformations. Three priority tables and a general list give the ordered recommendation for a column's (information type, sensitivity, column type).
- **Column transformations**. Shuffle, retain, suppress, pseudonymise, full masking, NRIC masking, e-mail masking and transpose, plus the older copies of these in `mask.py`.
- **Controller** (`DataAnonymizer`). It builds the properties frame with the detector. It overwrites one cell of that frame after checking the column name and the new value against the approved list for that property.

Files, one module each (two in `masking_funcs.dfy`):

- `common.dfy` (`Common`): results and errors, plus the Python string and sequence semantics the code relies on. These are `'*' * k` with a negative `k`, slices with negative bounds, `str.split` and `len(set(...))`.
- `masking_funcs.dfy`: `Transforms` (the column transformations) and `Masker` (registry, tables, recommender).
- `auto_detect.dfy` (`AutoDetect`): data frames, the column-type decision, the properties frame as a class, and the detector class.
- `data_anonymizer.dfy` (`DataAnonymizer`): the controller class and the checks of `change_property`.
- `mask.dfy` (`Mask`): the module functions of `mask.py`.
- `anonymisation_utils.dfy` (`AnonymisationUtils`): `check_column_type`.

The stateful parts are classes:

- `PropertiesFrame` holds the frame's index and its three property columns. Its `SetLoc` is the `.loc[...] = value` update.
- `DataAutoDetecter` keeps the last frame it built.
- `DataAnonymizer` holds that same frame object. An override made through the controller is therefore seen through the detector too, as in the Python code.

The catalog's dictionaries are filled once by `Masker.__init__` and never changed, so they are module constants. The recommender's loop is a method proved equal to a specification function. The lemmas state the ordering, completeness and registry properties of that function.

Faithfulness points the model keeps:

- The information-type table names "Phone Number" twice. The later, empty entry wins.
- The detector spells "Continous" and emits "Other". The column-type table has the keys "Continuous" and "Others". So a recommendation for a detected numeric or unclassified column raises `KeyError`, unless the column is a direct identifier.
- The approved sensitivity list is one comma-joined string. So no single sensitivity name can be set through `change_property`.
- Setting the information type to "NRIC" changes that one cell and nothing else. The column's sensitivity is not raised with it.
- Column types come from the dtype and the share of distinct values alone: numeric dtype, then object dtype with at most 0.4 distinct values per row, then naive datetime dtype, else "Other". Distinct values are counted as `unique()` counts them, under Python equality, so `1`, `1.0` and `True` are one value.
- Information type and sensitivity are not detected. Every column starts as "Others" / "Non-Sensitive".
- The recommender does not de-duplicate the table lists, so "Retain" can appear twice.
- `nric_masking` never fails. A value shorter than four characters comes back unchanged.
- `email_masking` raises unless the value holds exactly one '@'.
- `DataAnonymizer.apply_masking` is an empty stub.

## Model

| member | source | states |
|---|---|---|
| `Common.Split` | anonymizer/masking_funcs.py:178 | `str.split` on one character gives exactly one more part than there are separators, so unpacking into two names succeeds exactly when there is one '@' |
| `Common.SplitJoin` | anonymizer/masking_funcs.py:178 | joining the parts of a split with the separator gives back the original string |
| `Common.SplitPartsFree` | anonymizer/masking_funcs.py:178 | no part of a split contains the separator |
| `Common.SplitAround` | anonymizer/masking_funcs.py:178 | a string with one separator, between two separator-free parts, splits into exactly those two parts |
| `Common.DistinctCount` | anonymizer/auto_detect.py:6 | the number of distinct names never exceeds the number of names, and equals it exactly when no name repeats |
| `Transforms.PermutePreservesMultiset` | anonymizer/masking_funcs.py:106-108 | reading a column through a permutation of its positions keeps every value with its multiplicity |
| `Transforms.Shuffle` | anonymizer/masking_funcs.py:106-108 | `shuffle` returns a column of the same length holding the same values with the same multiplicities (a permutation) |
| `Transforms.Retention` | anonymizer/masking_funcs.py:110-111 | `retention` returns the column unchanged |
| `Transforms.Surpression` | anonymizer/masking_funcs.py:113-116 | `surpression` keeps the length and turns every value into "-" |
| `Transforms.PseudonymizeSha256` | anonymizer/masking_funcs.py:119-127 | `pseudonymize_sha256` keeps the length and replaces each value by the digest of its `str()` form; hence values with equal `str()` forms get equal digests (unsalted, deterministic) |
| `Transforms.FullMask` | anonymizer/masking_funcs.py:130 | the mask of one value has that value's length and consists of '-' only |
| `Transforms.FullMaskRevealsOnlyLength` | anonymizer/masking_funcs.py:129-131 | two values get the same full mask exactly when they have the same length |
| `Transforms.FullMasking` | anonymizer/masking_funcs.py:129-131 | `full_masking` keeps the column length and turns each value into as many '-' as it has characters |
| `Transforms.Transpose` | anonymizer/masking_funcs.py:172-173 | `transpose` returns the column unchanged |
| `Transforms.MaskNric` | anonymizer/masking_funcs.py:185-186 | the NRIC mask keeps the length; from four characters on it keeps the last four and stars all earlier ones; a shorter value is returned unchanged |
| `Transforms.MaskNricReveals` | anonymizer/masking_funcs.py:184-188 | two values mask alike exactly when they have equal length and equal last four characters, or are equal when shorter than four |
| `Transforms.MaskNricIdempotent` | anonymizer/masking_funcs.py:184-188 | masking an already masked NRIC changes nothing |
| `Transforms.NricMasking` | anonymizer/masking_funcs.py:184-188 | `nric_masking` keeps the column length and masks each value with the NRIC mask |
| `Transforms.MaskEmail` | anonymizer/masking_funcs.py:177-180 | masking one address fails exactly when it does not contain exactly one '@' |
| `Transforms.MaskEmailWithoutAt` | anonymizer/masking_funcs.py:177-178 | an address without '@' splits into one part, so unpacking it raises |
| `Transforms.MaskEmailShape` | anonymizer/masking_funcs.py:176-182 | for one '@' at position `at` and `n >= 0`: the mask keeps the length, keeps the first `min(n, at)` characters, stars the rest of the user name, and keeps '@' and the domain |
| `Transforms.MaskEmailIdempotent` | anonymizer/masking_funcs.py:176-182 | masking an already masked address again with the same `n` changes nothing |
| `Transforms.EmailMasking` | anonymizer/masking_funcs.py:176-182 | `email_masking` succeeds exactly when every value holds one '@'; then it keeps the column length and masks each value |
| `Masker.GetTransformerFromName` | anonymizer/masking_funcs.py:95-99 | raises exactly when the name is not a registry key; otherwise the transformer returned is the one filed under that name |
| `Masker.RegistryRoundTrip` | anonymizer/masking_funcs.py:13-27 | each of the 13 transformers is registered, and looking up its name gives it back |
| `Masker.MissingMembers` | anonymizer/masking_funcs.py:88-91 | a name is among the missing general names exactly when it is a general name that the list so far lacks |
| `Masker.MissingNoDuplicates` | anonymizer/masking_funcs.py:88-91 | when the general names have no repeats, the appended names have none either |
| `Masker.AppendMissingMembers` | anonymizer/masking_funcs.py:88-91 | after the loop, a name is in the list exactly when it was there before or is a general name |
| `Masker.AppendMissingIsFilter` | anonymizer/masking_funcs.py:88-91 | the loop over the general names appends exactly the missing ones, once each, in their order, after the list it started from |
| `Masker.Recommendation` | anonymizer/masking_funcs.py:62-93 | the recommendation raises `KeyError` exactly when the information type or the sensitivity is not a key, or the sensitivity is not "Direct Identifier" and the column type is not a key; the information-type lookup is made first |
| `Masker.GenerateListTransFunctions` | anonymizer/masking_funcs.py:62-93 | the method with its loop returns exactly the specified recommendation or error |
| `Masker.DirectIdentifierStopsEarly` | anonymizer/masking_funcs.py:75-82 | for "Direct Identifier" the result is the information-type list followed by "Pseudonymise", "Surpress", "Full Masking", whatever the column type |
| `Masker.RecommendationFallsThrough` | anonymizer/masking_funcs.py:75-91 | otherwise the three table lists come first, in order and without de-duplication, followed by exactly the general names they lack, once each and in order; every general name occurs |
| `Masker.NonSensitiveOthersRetainsTwice` | anonymizer/masking_funcs.py:75-91 | a non-sensitive "Others" column is offered "Retain" twice, then the other five general names |
| `Masker.PhoneNumberFallsThrough` | anonymizer/masking_funcs.py:37-39 | the duplicated "Phone Number" key resolves to its later, empty list |
| `Masker.RecommendedNamesAreRegistered` | anonymizer/masking_funcs.py:13-59 | every name a successful recommendation contains resolves with `get_transformer_from_name` |
| `AutoDetect.DetectColumnType` | anonymizer/auto_detect.py:14-29 | the label is one of four; "Continous" exactly for numeric dtypes whatever the values; "Categorical" exactly for object columns whose number of distinct values under Python equality is at most 0.4 times the row count; "Datetime" exactly for naive datetime dtypes |
| `AutoDetect.EmptyObjectColumnIsCategorical` | anonymizer/auto_detect.py:20-22 | an object column without rows is "Categorical" |
| `AutoDetect.PythonEqualValuesCountOnce` | anonymizer/auto_detect.py:20-22 | the object column `[1, True, 1.0, 1, 1]` has one distinct value and is "Categorical"; the object column `[1, 2, 3, 4, 5]` is "Other" |
| `AutoDetect.DetectedLabelApproved` | anonymizer/auto_detect.py:10 | a detected label is an approved column type exactly when it is not "Other" |
| `AutoDetect.PropertiesFrame.constructor` | anonymizer/auto_detect.py:55-56 | a new frame has the given names as index and no property columns yet |
| `AutoDetect.PropertiesFrame.SetLoc` | anonymizer/data_anonymizer.py:21 | writing one cell of the frame sets that cell and leaves every other cell of every row as it was |
| `AutoDetect.DataAutoDetecter.constructor` | anonymizer/auto_detect.py:9-12 | a detector for a frame with unique column names keeps the frame and has built no properties frame yet |
| `AutoDetect.DataAutoDetecter.New` | anonymizer/auto_detect.py:4-7 | construction raises `ValueError` exactly when some column name repeats |
| `AutoDetect.DataAutoDetecter.DetectAllColumnType` | anonymizer/auto_detect.py:31-36 | the loop yields one label per column, in column order, each the column's detected type |
| `AutoDetect.DataAutoDetecter.DetectInformationType` | anonymizer/auto_detect.py:38-41 | every column's information type is "Others" |
| `AutoDetect.DataAutoDetecter.DetectSensitivityType` | anonymizer/auto_detect.py:43-46 | every column's sensitivity is "Non-Sensitive" |
| `AutoDetect.DataAutoDetecter.ConstructColumnMapper` | anonymizer/auto_detect.py:48-61 | the new frame, also kept by the detector, is indexed by the column names in order, and each row holds the detected column type, "Others" and "Non-Sensitive" |
| `AutoDetect.ApprovedLists` | anonymizer/auto_detect.py:10-12 | the `list_approved_*` getters return the fixed lists; column types exclude "Continuous", "Other" and "Unique/Sparse"; the sensitivity list has one entry, equal to none of the four sensitivity names |
| `DataAnonymizer.ValidateChange` | anonymizer/data_anonymizer.py:12-44 | an override passes exactly when the column exists, the property kind is known and the value is approved for it; an unknown column is reported before anything else, and an unknown kind before the value is looked at |
| `DataAnonymizer.SensitivityOverrideRejectsEveryName` | anonymizer/data_anonymizer.py:32-35 | a sensitivity override passes only for the comma-joined string; "Direct Identifier" and the other names are refused |
| `DataAnonymizer.NricOverrideHasNoCascade` | anonymizer/data_anonymizer.py:24-30 | setting the information type to "NRIC" is accepted as a change of the information-type cell only |
| `DataAnonymizer.ColumnTypeOverrideValues` | anonymizer/data_anonymizer.py:16-19 | a column-type override passes exactly for "Continous", "Categorical" and "Datetime" |
| `DataAnonymizer.DetectedLabelsMissFromCatalog` | anonymizer/masking_funcs.py:51-57 | for a numeric or unclassified column that is not a direct identifier, the recommendation for its detected label raises `KeyError` |
| `DataAnonymizer.DataAnonymizer.constructor` | anonymizer/data_anonymizer.py:6-10 | the controller holds the detector's own properties frame, indexed by the column names, with the detected defaults |
| `DataAnonymizer.DataAnonymizer.New` | anonymizer/data_anonymizer.py:6-10 | construction raises exactly when a column name repeats; otherwise the frame's index is exactly the data frame's column names |
| `DataAnonymizer.DataAnonymizer.ChangeProperty` | anonymizer/data_anonymizer.py:12-44 | a refused call raises the first failed check and leaves the frame untouched; a successful one changes exactly the cell (column, chosen property) and returns the frame |
| `DataAnonymizer.OverrideWithNric` | anonymizer/data_anonymizer.py:24-30 | overriding a known column's information type with "NRIC" succeeds, sets that cell, and keeps the column's sensitivity and column type as they were |
| `Mask.Swapping` | mask.py:14-16 | `swapping` returns a column of equal length holding the same values with the same multiplicities |
| `Mask.Retention` | mask.py:18-19 | `retention` returns the column unchanged |
| `Mask.RetentionIdempotent` | mask.py:18-19 | retaining twice is retaining once |
| `Mask.Surpression` | mask.py:22-24 | `surpression` keeps the length and turns every value into "-" |
| `Mask.FullMasking` | mask.py:26-28 | `full_masking` ignores its `index` argument and masks each value with as many '-' as it has characters |
| `Mask.EmailMasking` | mask.py:30-36 | `email_masking` succeeds exactly when every value holds one '@', then keeps the length and masks each value |
| `Mask.NricMasking` | mask.py:38-42 | `nric_masking` keeps the length; from four characters on it keeps the last four and stars the rest; shorter values are unchanged |
| `Mask.PseudonymizeSha256` | mask.py:44-52 | `pseudonymize_sha256` keeps the length and replaces each value by the digest of its `str()` form, so values with equal `str()` forms get equal digests |
| `Mask.StubsReturnNothing` | mask.py:73-78 | `transpose` and `generalise_date_median` return nothing, where `Masker.transpose` returns its column |
| `AnonymisationUtils.CheckColumnType` | anonymisation_utils.py:4-19 | the label is one of four; "Continuous" exactly for numeric dtypes, "Categorical" exactly for object columns with at most 0.4 distinct values per row, "Datetime" exactly for naive datetime dtypes |
| `AnonymisationUtils.AgreesWithDetector` | anonymisation_utils.py:4-19 | `check_column_type` agrees with the detector's decision on every column, except that it spells "Continuous" for "Continous" |

## Left out

- The binning transformations are not modelled: `generalise_num_bin`, `generalise_num_bin_mean`, `generalise_date_bin` and `generalise_date_median` in `Masker` and in `mask.py`. They rest on `pd.cut`, floating-point midpoints and timestamp normalisation. Their names stay in the registry as transformer tags.
- `encode` is not modelled. Its behaviour is scikit-learn's `LabelEncoder`, which is not part of this model.
- The SHA-256 digest and Python's `str()` are function parameters of the pseudonymisation. NumPy's random permutation is a parameter of `shuffle`/`swapping`: any permutation of the positions.
- `Masker.GetTransformerFromName`: returns a transformer tag, not the bound method the Python dictionary holds.
- `DataAnonymizer.apply_masking` is an empty stub, declared without `self`, so there is nothing to model.
- The `Masker` that `DataAnonymizer.__init__` creates is not kept. No operation of the class uses it.
- The zero-argument `shuffle` stub of `mask.py` is not modelled. It takes no column and returns nothing.
- The `print` calls of `construct_column_mapper` are not modelled (output only).
- `AutoDetect.DetectColumnType`: compares `5 * distinct <= 2 * rows` in integers. Python compares against the float `0.4 * len(column)`. The two agree for every row count below 2^50. The `unique_val_ratio` parameter is fixed at its default, since no caller passes it.
- `AutoDetect.DetectColumnType`: models pandas dtypes as a closed set of tags and the dtype tests as predicates over it. Cell values are integers, reals, strings, timestamps, booleans and one missing value. `unique()` counts the missing value once. It compares values by Python equality only across booleans, integers and integral floats; the equalities of other Python types (a timestamp equal to a `datetime`, a `Decimal`) are not modelled.
- `Transforms.MaskEmailShape`: states the mask's shape only for `n >= 0`. For a negative `n`, `MaskEmail` follows Python's slicing and repetition rules, and the result is then longer than the input. The default used by `Masker` is `n = 0`.
- The string transformations take columns of strings. A non-string value, on which Python raises `TypeError` or `AttributeError`, is not modelled.
- A data frame's columns are not required to have equal length. No modelled operation depends on it.
