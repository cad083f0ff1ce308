/** The module-level column functions of mask.py, an older copy of the
    `Masker` transformations. Where a function does what its `Masker`
    counterpart does, it is defined through that counterpart; the
    differences are kept: `full_masking` takes an extra `index` argument it
    never uses, `email_masking` has no default for the number of kept
    characters, `swapping` is `Masker.shuffle` under another name, and
    `transpose` and `generalise_date_median` are stubs that return `None`. */
module Mask {
  import opened Common
  import Transforms

  /** `swapping`: `np.random.permutation(col)`, the drawn permutation being
      the parameter. */
  function Swapping<T>(col: seq<T>, perm: seq<nat>): (r: seq<T>)
    requires Transforms.IsIndexPermutation(perm, |col|)
    ensures |r| == |col|
    ensures multiset(r) == multiset(col)
  {
    Transforms.Shuffle(col, perm)
  }

  /** `retention`. */
  function Retention<T>(col: seq<T>): (r: seq<T>)
    ensures r == col
  {
    Transforms.Retention(col)
  }

  /** Retaining twice is retaining once. */
  lemma RetentionIdempotent<T>(col: seq<T>)
    ensures Retention(Retention(col)) == Retention(col)
  {
  }

  /** `surpression`. */
  function Surpression<T>(col: seq<T>): (r: seq<string>)
    ensures |r| == |col|
    ensures forall i :: 0 <= i < |r| ==> r[i] == "-"
  {
    Transforms.Surpression(col)
  }

  /** `full_masking(string_col, index)`: the result does not depend on
      `index`, and each value becomes as many '-' as it has characters. */
  function FullMasking(col: seq<string>, index: int): (r: seq<string>)
    ensures r == Transforms.FullMasking(col)
    ensures |r| == |col|
    ensures forall i :: 0 <= i < |col| ==> r[i] == Transforms.FullMask(col[i])
  {
    Transforms.FullMasking(col)
  }

  /** `email_masking(email_col, n_chars_to_retain)`: raises unless every
      value has exactly one '@'. */
  function EmailMasking(col: seq<string>, n: int): (r: Result<seq<string>>)
    ensures r.Success? <==> forall i :: 0 <= i < |col| ==> Count(col[i], '@') == 1
    ensures r.Success? ==> |r.value| == |col|
    ensures r.Success? ==> forall i :: 0 <= i < |col| ==> Transforms.MaskEmail(col[i], n) == Success(r.value[i])
  {
    Transforms.EmailMasking(col, n)
  }

  /** `nric_masking`. */
  function NricMasking(col: seq<string>): (r: seq<string>)
    ensures |r| == |col|
    ensures forall i :: 0 <= i < |col| && |col[i]| >= 4 ==>
      |r[i]| == |col[i]| && r[i][|col[i]| - 4..] == col[i][|col[i]| - 4..] &&
      forall k :: 0 <= k < |col[i]| - 4 ==> r[i][k] == '*'
    ensures forall i :: 0 <= i < |col| && |col[i]| < 4 ==> r[i] == col[i]
  {
    Transforms.NricMasking(col)
  }

  /** `pseudonymize_sha256`: values with the same `str()` form get the same
      digest. */
  function PseudonymizeSha256<T>(col: seq<T>, str: T -> string, sha256: string -> string): (r: seq<string>)
    ensures |r| == |col|
    ensures forall i :: 0 <= i < |col| ==> r[i] == sha256(str(col[i]))
    ensures forall i, j :: 0 <= i < |col| && 0 <= j < |col| && str(col[i]) == str(col[j]) ==> r[i] == r[j]
  {
    Transforms.PseudonymizeSha256(col, str, sha256)
  }

  /** `transpose`: its body is `pass`. */
  function Transpose<T>(col: seq<T>): Option<seq<T>>
  {
    None
  }

  /** `generalise_date_median`: its body is `pass`. */
  function GeneraliseDateMedian<T>(dateCol: seq<T>): Option<seq<T>>
  {
    None
  }

  /** The two stubs give back nothing, where `Masker.transpose` gives back
      the column it was passed. */
  lemma StubsReturnNothing<T>(col: seq<T>)
    ensures Transpose(col) == None && GeneraliseDateMedian(col) == None
    ensures Transforms.Transpose(col) == col
  {
  }
}
