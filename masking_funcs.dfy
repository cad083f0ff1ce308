/** The column-wise transformations of the `Masker` class
    (anonymizer/masking_funcs.py, lines 106-188). A pandas column is a
    sequence of values; the string transformations work on `seq<string>`.
    What the code takes from outside is a parameter here: the random
    permutation drawn by NumPy, Python's `str()` conversion and the SHA-256
    hex digest. */
module Transforms {
  import opened Common

  /** `perm` lists each position of an `n`-element column exactly once. */
  predicate IsIndexPermutation(perm: seq<nat>, n: nat)
  {
    && |perm| == n
    && (forall i :: 0 <= i < n ==> perm[i] < n)
    && (forall i, j :: 0 <= i < j < n ==> perm[i] != perm[j])
  }

  /** The column read in the order `perm` gives. */
  function Permute<T>(col: seq<T>, perm: seq<nat>): (r: seq<T>)
    requires forall i :: 0 <= i < |perm| ==> perm[i] < |col|
    ensures |r| == |perm|
    ensures forall i :: 0 <= i < |r| ==> r[i] == col[perm[i]]
  {
    seq(|perm|, i requires 0 <= i < |perm| => col[perm[i]])
  }

  /** Reading a column through a permutation of its positions keeps every
      value with its multiplicity. */
  lemma {:induction false} PermutePreservesMultiset<T>(col: seq<T>, perm: seq<nat>)
    requires IsIndexPermutation(perm, |col|)
    ensures multiset(Permute(col, perm)) == multiset(col)
  {
    var n := |col|;
    if n > 0 {
      // Take out the position that the last output slot reads ...
      var p := perm[n - 1];
      var rest := col[..p] + col[p + 1..];
      // ... and renumber the remaining positions above it.
      var perm': seq<nat> := seq(n - 1, i requires 0 <= i < n - 1 =>
        perm[i] - (if perm[i] > p then 1 else 0));
      forall i | 0 <= i < n - 1 ensures perm'[i] < n - 1 && rest[perm'[i]] == col[perm[i]] {
        assert perm[i] != p;
      }
      forall i, j | 0 <= i < j < n - 1 ensures perm'[i] != perm'[j] {
        assert perm[i] != p && perm[j] != p && perm[i] != perm[j];
      }
      PermutePreservesMultiset(rest, perm');
      assert Permute(col, perm) == Permute(rest, perm') + [col[p]];
      assert col == col[..p] + [col[p]] + col[p + 1..];
    }
  }

  /** `shuffle`: `np.random.permutation(col)`. The permutation NumPy draws
      is the parameter `perm`; the result holds the same values, each as
      often as before. */
  function Shuffle<T>(col: seq<T>, perm: seq<nat>): (r: seq<T>)
    requires IsIndexPermutation(perm, |col|)
    ensures |r| == |col|
    ensures multiset(r) == multiset(col)
  {
    PermutePreservesMultiset(col, perm);
    Permute(col, perm)
  }

  /** `retention`: the column is kept as it is. */
  function Retention<T>(col: seq<T>): (r: seq<T>)
    ensures r == col
  {
    col
  }

  /** `transpose`: a placeholder that passes the column through. */
  function Transpose<T>(col: seq<T>): (r: seq<T>)
    ensures r == col
  {
    col
  }

  /** `surpression`: every value, of whatever type, becomes "-". */
  function Surpression<T>(col: seq<T>): (r: seq<string>)
    ensures |r| == |col|
    ensures forall i :: 0 <= i < |r| ==> r[i] == "-"
  {
    seq(|col|, _ => "-")
  }

  /** `pseudonymize_sha256`: every value is converted with `str()` and
      replaced by the digest of that string. The digest is unsalted, so
      values with the same string form get the same pseudonym. */
  function PseudonymizeSha256<T>(col: seq<T>, str: T -> string, sha256: string -> string): (r: seq<string>)
    ensures |r| == |col|
    ensures forall i :: 0 <= i < |col| ==> r[i] == sha256(str(col[i]))
    ensures forall i, j :: 0 <= i < |col| && 0 <= j < |col| && str(col[i]) == str(col[j]) ==> r[i] == r[j]
  {
    seq(|col|, i requires 0 <= i < |col| => sha256(str(col[i])))
  }

  /** The per-value mask of `full_masking`: `len(x) * '-'`. */
  function FullMask(s: string): (r: string)
    ensures |r| == |s|
    ensures forall k :: 0 <= k < |r| ==> r[k] == '-'
  {
    Repeat('-', |s|)
  }

  /** A fully masked value reveals its length and nothing else. */
  lemma FullMaskRevealsOnlyLength(s: string, t: string)
    ensures FullMask(s) == FullMask(t) <==> |s| == |t|
  {
    if |s| == |t| {
      assert forall k :: 0 <= k < |s| ==> FullMask(s)[k] == FullMask(t)[k];
    }
  }

  /** `full_masking` over a column of strings. */
  function FullMasking(col: seq<string>): (r: seq<string>)
    ensures |r| == |col|
    ensures forall i :: 0 <= i < |col| ==> |r[i]| == |col[i]| && forall k :: 0 <= k < |r[i]| ==> r[i][k] == '-'
  {
    seq(|col|, i requires 0 <= i < |col| => FullMask(col[i]))
  }

  /** The per-value mask of `nric_masking`: `(len(nric) - 4) * '*' + nric[-4:]`.
      A value of fewer than four characters comes back unchanged, since
      the repetition is then empty and the slice is the whole string. */
  function MaskNric(nric: string): (r: string)
    ensures |r| == |nric|
    ensures |nric| >= 4 ==> r[|nric| - 4..] == nric[|nric| - 4..]
    ensures |nric| >= 4 ==> forall k :: 0 <= k < |nric| - 4 ==> r[k] == '*'
    ensures |nric| < 4 ==> r == nric
  {
    Repeat('*', |nric| - 4) + SliceFrom(nric, -4)
  }

  /** From four characters on, the NRIC mask is the stars followed by the
      last four characters. */
  lemma MaskNricLong(nric: string)
    requires |nric| >= 4
    ensures MaskNric(nric) == Repeat('*', |nric| - 4) + nric[|nric| - 4..]
  {
    assert SliceFrom(nric, -4) == nric[|nric| - 4..];
  }

  /** Two values mask alike exactly when they have the same length and the
      same last four characters (or, when shorter than four, are equal). */
  lemma MaskNricReveals(s: string, t: string)
    ensures MaskNric(s) == MaskNric(t) <==>
      |s| == |t| && (if |s| >= 4 then s[|s| - 4..] == t[|t| - 4..] else s == t)
  {
    if |s| == |t| && |s| >= 4 && s[|s| - 4..] == t[|t| - 4..] {
      MaskNricLong(s);
      MaskNricLong(t);
      assert MaskNric(s) == Repeat('*', |s| - 4) + t[|t| - 4..];
    }
    if MaskNric(s) == MaskNric(t) {
      assert |s| == |MaskNric(s)| == |t|;
      if |s| >= 4 {
        assert s[|s| - 4..] == MaskNric(s)[|s| - 4..];
        assert t[|t| - 4..] == MaskNric(t)[|t| - 4..];
      }
    }
  }

  /** Masking an already masked NRIC changes nothing. */
  lemma MaskNricIdempotent(s: string)
    ensures MaskNric(MaskNric(s)) == MaskNric(s)
  {
    var m := MaskNric(s);
    if |s| >= 4 {
      MaskNricLong(s);
      MaskNricLong(m);
      assert m[|m| - 4..] == s[|s| - 4..];
    }
  }

  /** `nric_masking` over a column of strings. */
  function NricMasking(col: seq<string>): (r: seq<string>)
    ensures |r| == |col|
    ensures forall i :: 0 <= i < |col| ==> r[i] == MaskNric(col[i])
  {
    seq(|col|, i requires 0 <= i < |col| => MaskNric(col[i]))
  }

  /** The per-value mask of `email_masking`: `username, domain =
      email.split('@')` raises unless the split gives exactly two parts;
      then the first `n` characters of the user name are kept, `'*' *
      (len(username) - n)` follows, then '@' and the domain. */
  function MaskEmail(email: string, n: int): (r: Result<string>)
    ensures r.Failure? <==> Count(email, '@') != 1
  {
    var parts := Split(email, '@');
    if |parts| != 2 then Failure(UnpackError(|parts|))
    else
      var username, domain := parts[0], parts[1];
      Success(SliceTo(username, n) + Repeat('*', |username| - n) + "@" + domain)
  }

  /** An address without '@' splits into the single part, so unpacking it
      into user name and domain raises. */
  lemma MaskEmailWithoutAt(email: string, n: int)
    requires '@' !in email
    ensures MaskEmail(email, n) == Failure(UnpackError(1))
  {
    CountZero(email, '@');
  }

  /** For an address with one '@' at position `at` and a non-negative `n`:
      the mask has the address's length, keeps the first `min(n, at)`
      characters, stars the rest of the user name, and keeps '@' and the
      domain. */
  lemma {:induction false} MaskEmailShape(email: string, n: int)
    requires n >= 0 && Count(email, '@') == 1
    ensures var at := |Split(email, '@')[0]|; var r := MaskEmail(email, n);
      && at < |email| && email[at] == '@' && '@' !in email[..at] && '@' !in email[at + 1..]
      && r.Success? && |r.value| == |email|
      && r.value[..Min(n, at)] == email[..Min(n, at)]
      && (forall k :: Min(n, at) <= k < at ==> r.value[k] == '*')
      && r.value[at..] == email[at..]
  {
    var parts := Split(email, '@');
    SplitJoin(email, '@');
    SplitPartsFree(email, '@');
    var u, d := parts[0], parts[1];
    assert parts[1..] == [d];
    assert email == u + "@" + d;
    assert email[..|u|] == u && email[|u| + 1..] == d;
    var m := Min(n, |u|);
    var r := SliceTo(u, n) + Repeat('*', |u| - n) + "@" + d;
    assert MaskEmail(email, n) == Success(r);
    assert r[..m] == u[..m];
    assert r[|u|..] == "@" + d;
  }

  /** Masking an already masked address with the same `n` changes nothing. */
  lemma MaskEmailIdempotent(u: string, d: string, n: int)
    requires '@' !in u && '@' !in d && n >= 0
    ensures MaskEmail(u + "@" + d, n).Success?
    ensures MaskEmail(MaskEmail(u + "@" + d, n).value, n) == MaskEmail(u + "@" + d, n)
  {
    SplitAround(u, d, '@');
    var m := Min(n, |u|);
    var u' := u[..m] + Repeat('*', |u| - m);
    assert SliceTo(u, n) + Repeat('*', |u| - n) == u';
    assert MaskEmail(u + "@" + d, n) == Success(u' + "@" + d);
    assert '@' !in u';
    SplitAround(u', d, '@');
    assert SliceTo(u', n) == u[..m];
    assert SliceTo(u', n) + Repeat('*', |u'| - n) == u';
  }

  /** `email_masking` over a column: the first address that does not split
      in two raises and no column is produced. */
  function EmailMasking(col: seq<string>, n: int): (r: Result<seq<string>>)
    ensures r.Success? <==> forall i :: 0 <= i < |col| ==> Count(col[i], '@') == 1
    ensures r.Success? ==> |r.value| == |col|
    ensures r.Success? ==> forall i :: 0 <= i < |col| ==> MaskEmail(col[i], n) == Success(r.value[i])
  {
    if col == [] then Success([])
    else
      match MaskEmail(col[0], n)
      case Failure(e) => Failure(e)
      case Success(m) =>
        match EmailMasking(col[1..], n)
        case Failure(e) => Failure(e)
        case Success(ms) => Success([m] + ms)
  }
}

/** The transformer registry and the recommender of the `Masker` class
    (anonymizer/masking_funcs.py, lines 7-99). The dictionaries that
    `Masker.__init__` fills are never changed afterwards, so they are
    constants here, keyed by the same strings. */
module Masker {
  import opened Common

  /** The thirteen column transformations the registry can hand out. */
  datatype Transformer =
    | Shuffle | Retention | Surpression | EmailMasking | NricMasking
    | PseudonymizeSha256 | FullMasking | GeneraliseNumBin | GeneraliseNumBinMean
    | GeneraliseDateBin | GeneraliseDateMedian | Encode | Transpose

  /** `transform_name_mapper`. */
  const TransformNameMapper: map<string, Transformer> := map[
    "Shuffle" := Shuffle,
    "Retain" := Retention,
    "Surpress" := Surpression,
    "Mask Email" := EmailMasking,
    "Mask NRIC" := NricMasking,
    "Pseudonymise" := PseudonymizeSha256,
    "Full Masking" := FullMasking,
    "Generalise (Numerical Bin)" := GeneraliseNumBin,
    "Generalise (Numerical Bin Mean)" := GeneraliseNumBinMean,
    "Generalise (Date Bin)" := GeneraliseDateBin,
    "Generalise (Date Bin Median)" := GeneraliseDateMedian,
    "Encode" := Encode,
    "Transpose" := Transpose
  ]

  /** `information_type_mask_mapper`. The literal names "Phone Number"
      twice; as in a Python dict display, the later entry wins. */
  const InformationTypeMaskMapper: map<string, seq<string>> := map[
    "NRIC" := ["Mask NRIC"],
    "Email" := ["Mask Email"],
    "Phone Number" := ["Pseudonymise", "Surpress"],
    "Others" := [],
    "Phone Number" := [],
    "Salary" := [],
    "Date of Birth" := []
  ]

  /** `sensitivity_type_mask_mapper`. */
  const SensitivityTypeMaskMapper: map<string, seq<string>> := map[
    "Direct Identifier" := ["Pseudonymise", "Surpress", "Full Masking"],
    "Indirect Identifier" := [],
    "Sensitive" := [],
    "Non-Sensitive" := ["Retain"]
  ]

  /** `col_type_mask_mapper`. */
  const ColTypeMaskMapper: map<string, seq<string>> := map[
    "Categorical" := ["Encode"],
    "Continuous" := ["Generalise (Numerical Bin Mean)", "Generalise (Numerical Bin)"],
    "Datetime" := ["Generalise (Date Bin Median)", "Generalise (Date Bin)"],
    "Unique/Sparse" := ["Pseudonymise"],
    "Others" := ["Retain"]
  ]

  /** `general_type_funcs`: offered for every column that is not a direct
      identifier. */
  const GeneralTypeFuncs: seq<string> :=
    ["Retain", "Surpress", "Pseudonymise", "Full Masking", "Transpose", "Shuffle"]

  const DirectIdentifier: string := "Direct Identifier"

  /** The registry read backwards: the name each transformer is filed under. */
  function TransformerName(t: Transformer): string
  {
    match t
    case Shuffle => "Shuffle"
    case Retention => "Retain"
    case Surpression => "Surpress"
    case EmailMasking => "Mask Email"
    case NricMasking => "Mask NRIC"
    case PseudonymizeSha256 => "Pseudonymise"
    case FullMasking => "Full Masking"
    case GeneraliseNumBin => "Generalise (Numerical Bin)"
    case GeneraliseNumBinMean => "Generalise (Numerical Bin Mean)"
    case GeneraliseDateBin => "Generalise (Date Bin)"
    case GeneraliseDateMedian => "Generalise (Date Bin Median)"
    case Encode => "Encode"
    case Transpose => "Transpose"
  }

  /** `get_transformer_from_name`: raises exactly for an unregistered name;
      otherwise the transformer found is the one filed under that name. */
  function GetTransformerFromName(name: string): (r: Result<Transformer>)
    ensures r.Failure? <==> name !in TransformNameMapper
    ensures r.Failure? ==> r.error == TransformerNotFound
    ensures r.Success? ==> TransformerName(r.value) == name
  {
    if name !in TransformNameMapper then Failure(TransformerNotFound)
    else Success(TransformNameMapper[name])
  }

  /** Every transformer is registered, under its own name. */
  lemma RegistryRoundTrip(t: Transformer)
    ensures GetTransformerFromName(TransformerName(t)) == Success(t)
  {
  }

  /** What the loop over `general_type_funcs` builds: each name of `fs`, in
      order, appended unless the list built so far already holds it. */
  function AppendMissing(acc: seq<string>, fs: seq<string>): seq<string>
  {
    if fs == [] then acc
    else
      var r := AppendMissing(acc, fs[..|fs| - 1]);
      if fs[|fs| - 1] in r then r else r + [fs[|fs| - 1]]
  }

  /** The names of `fs` that `acc` lacks, in the order of `fs`. */
  function Missing(acc: seq<string>, fs: seq<string>): seq<string>
  {
    if fs == [] then []
    else Missing(acc, fs[..|fs| - 1]) + (if fs[|fs| - 1] in acc then [] else [fs[|fs| - 1]])
  }

  lemma {:induction false} MissingMembers(acc: seq<string>, fs: seq<string>)
    ensures forall x :: x in Missing(acc, fs) <==> x in fs && x !in acc
  {
    if fs != [] {
      MissingMembers(acc, fs[..|fs| - 1]);
      assert fs == fs[..|fs| - 1] + [fs[|fs| - 1]];
    }
  }

  lemma {:induction false} MissingNoDuplicates(acc: seq<string>, fs: seq<string>)
    requires NoDuplicates(fs)
    ensures NoDuplicates(Missing(acc, fs))
  {
    if fs != [] {
      var init, x := fs[..|fs| - 1], fs[|fs| - 1];
      MissingNoDuplicates(acc, init);
      MissingMembers(acc, init);
      assert x !in init;
    }
  }

  lemma {:induction false} AppendMissingMembers(acc: seq<string>, fs: seq<string>)
    ensures forall x :: x in AppendMissing(acc, fs) <==> x in acc || x in fs
  {
    if fs != [] {
      AppendMissingMembers(acc, fs[..|fs| - 1]);
      assert fs == fs[..|fs| - 1] + [fs[|fs| - 1]];
    }
  }

  /** For names without repeats, the loop appends exactly the missing
      names, once each, in their own order, after the list it started from. */
  lemma {:induction false} AppendMissingIsFilter(acc: seq<string>, fs: seq<string>)
    requires NoDuplicates(fs)
    ensures AppendMissing(acc, fs) == acc + Missing(acc, fs)
  {
    if fs != [] {
      var init, x := fs[..|fs| - 1], fs[|fs| - 1];
      AppendMissingIsFilter(acc, init);
      MissingMembers(acc, init);
      assert x !in init;
      var r := AppendMissing(acc, init);
      assert x in r <==> x in acc;
    }
  }

  /** `generate_list_trans_functions` as a value: the information-type list,
      then the sensitivity list; for a direct identifier nothing more;
      otherwise the column-type list and the general names not yet present.
      Each table lookup raises `KeyError` for an unknown key. */
  function Recommendation(info: string, sens: string, colType: string): (r: Result<seq<string>>)
    ensures r.Failure? <==>
      info !in InformationTypeMaskMapper || sens !in SensitivityTypeMaskMapper ||
      (sens != DirectIdentifier && colType !in ColTypeMaskMapper)
    ensures info !in InformationTypeMaskMapper ==> r == Failure(KeyError(info))
    ensures info in InformationTypeMaskMapper && sens !in SensitivityTypeMaskMapper ==> r == Failure(KeyError(sens))
  {
    if info !in InformationTypeMaskMapper then Failure(KeyError(info))
    else if sens !in SensitivityTypeMaskMapper then Failure(KeyError(sens))
    else
      var prefix := InformationTypeMaskMapper[info] + SensitivityTypeMaskMapper[sens];
      if sens == DirectIdentifier then Success(prefix)
      else if colType !in ColTypeMaskMapper then Failure(KeyError(colType))
      else Success(AppendMissing(prefix + ColTypeMaskMapper[colType], GeneralTypeFuncs))
  }

  /** `Masker.generate_list_trans_functions`: grows `result` with `+=` and
      then appends each general name that is not already present. */
  method GenerateListTransFunctions(info: string, sens: string, colType: string)
    returns (r: Result<seq<string>>)
    ensures r == Recommendation(info, sens, colType)
  {
    var result: seq<string> := [];
    if info !in InformationTypeMaskMapper {
      return Failure(KeyError(info));
    }
    result := result + InformationTypeMaskMapper[info];
    if sens !in SensitivityTypeMaskMapper {
      return Failure(KeyError(sens));
    }
    result := result + SensitivityTypeMaskMapper[sens];
    assert result == InformationTypeMaskMapper[info] + SensitivityTypeMaskMapper[sens];
    if sens == DirectIdentifier {
      return Success(result);
    }
    if colType !in ColTypeMaskMapper {
      return Failure(KeyError(colType));
    }
    result := result + ColTypeMaskMapper[colType];
    ghost var start := result;
    for i := 0 to |GeneralTypeFuncs|
      invariant result == AppendMissing(start, GeneralTypeFuncs[..i])
    {
      var func := GeneralTypeFuncs[i];
      assert GeneralTypeFuncs[..i + 1][..i] == GeneralTypeFuncs[..i];
      if func !in result {
        result := result + [func];
      }
    }
    assert GeneralTypeFuncs[..|GeneralTypeFuncs|] == GeneralTypeFuncs;
    assert start == InformationTypeMaskMapper[info] + SensitivityTypeMaskMapper[sens] + ColTypeMaskMapper[colType];
    return Success(result);
  }

  /** A direct identifier gets the information-type list followed by the
      three direct-identifier names, whatever its column type (even one the
      column-type table lacks). */
  lemma DirectIdentifierStopsEarly(info: string, colType: string)
    requires info in InformationTypeMaskMapper
    ensures Recommendation(info, DirectIdentifier, colType) ==
      Success(InformationTypeMaskMapper[info] + ["Pseudonymise", "Surpress", "Full Masking"])
  {
  }

  /** Any other sensitivity: the three table lists come first, in order and
      without de-duplication, followed by exactly those general names they
      lack, once each and in `general_type_funcs` order; so every general
      name occurs in the result. */
  lemma {:induction false} RecommendationFallsThrough(info: string, sens: string, colType: string)
    requires info in InformationTypeMaskMapper && sens in SensitivityTypeMaskMapper
    requires colType in ColTypeMaskMapper && sens != DirectIdentifier
    ensures var prefix := InformationTypeMaskMapper[info] + SensitivityTypeMaskMapper[sens] + ColTypeMaskMapper[colType];
      var r := Recommendation(info, sens, colType);
      && r == Success(prefix + Missing(prefix, GeneralTypeFuncs))
      && (forall x :: x in Missing(prefix, GeneralTypeFuncs) <==> x in GeneralTypeFuncs && x !in prefix)
      && NoDuplicates(Missing(prefix, GeneralTypeFuncs))
      && (forall g :: g in GeneralTypeFuncs ==> g in r.value)
  {
    var prefix := InformationTypeMaskMapper[info] + SensitivityTypeMaskMapper[sens] + ColTypeMaskMapper[colType];
    assert NoDuplicates(GeneralTypeFuncs);
    AppendMissingIsFilter(prefix, GeneralTypeFuncs);
    MissingMembers(prefix, GeneralTypeFuncs);
    MissingNoDuplicates(prefix, GeneralTypeFuncs);
    AppendMissingMembers(prefix, GeneralTypeFuncs);
  }

  /** A non-sensitive column of column type "Others" is offered "Retain"
      twice: once from each table. */
  lemma NonSensitiveOthersRetainsTwice()
    ensures Recommendation("Others", "Non-Sensitive", "Others") ==
      Success(["Retain", "Retain", "Surpress", "Pseudonymise", "Full Masking", "Transpose", "Shuffle"])
  {
    var prefix := ["Retain", "Retain"];
    assert InformationTypeMaskMapper["Others"] + SensitivityTypeMaskMapper["Non-Sensitive"]
      + ColTypeMaskMapper["Others"] == prefix;
    assert NoDuplicates(GeneralTypeFuncs);
    AppendMissingIsFilter(prefix, GeneralTypeFuncs);
    var g := GeneralTypeFuncs;
    assert g[..1] == ["Retain"] && g[..0] == [];
    assert Missing(prefix, g[..1]) == [];
    assert g[..2][..1] == g[..1];
    assert Missing(prefix, g[..2]) == ["Surpress"];
    assert g[..3][..2] == g[..2];
    assert Missing(prefix, g[..3]) == ["Surpress", "Pseudonymise"];
    assert g[..4][..3] == g[..3];
    assert Missing(prefix, g[..4]) == ["Surpress", "Pseudonymise", "Full Masking"];
    assert g[..5][..4] == g[..4];
    assert Missing(prefix, g[..5]) == ["Surpress", "Pseudonymise", "Full Masking", "Transpose"];
    assert g[..6][..5] == g[..5] && g[..6] == g;
    assert Missing(prefix, g) == ["Surpress", "Pseudonymise", "Full Masking", "Transpose", "Shuffle"];
    assert AppendMissing(prefix, g) == ["Retain", "Retain", "Surpress", "Pseudonymise", "Full Masking", "Transpose", "Shuffle"];
  }

  /** The duplicated "Phone Number" key resolves to its later, empty list. */
  lemma PhoneNumberFallsThrough()
    ensures "Phone Number" in InformationTypeMaskMapper
    ensures InformationTypeMaskMapper["Phone Number"] == []
  {
  }

  /** Every name the recommender can return is a key of the registry, so
      resolving it with `get_transformer_from_name` never raises. */
  lemma RecommendedNamesAreRegistered(info: string, sens: string, colType: string)
    ensures var r := Recommendation(info, sens, colType);
      r.Success? ==> forall x :: x in r.value ==> GetTransformerFromName(x).Success?
  {
    var r := Recommendation(info, sens, colType);
    if r.Success? {
      assert forall k, x :: k in InformationTypeMaskMapper && x in InformationTypeMaskMapper[k] ==> x in TransformNameMapper;
      assert forall k, x :: k in SensitivityTypeMaskMapper && x in SensitivityTypeMaskMapper[k] ==> x in TransformNameMapper;
      assert forall k, x :: k in ColTypeMaskMapper && x in ColTypeMaskMapper[k] ==> x in TransformNameMapper;
      assert forall x :: x in GeneralTypeFuncs ==> x in TransformNameMapper;
      if sens != DirectIdentifier {
        var prefix := InformationTypeMaskMapper[info] + SensitivityTypeMaskMapper[sens] + ColTypeMaskMapper[colType];
        AppendMissingMembers(prefix, GeneralTypeFuncs);
      }
    }
  }
}
