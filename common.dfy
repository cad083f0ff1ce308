/** Shared vocabulary of the anonymiser model: the outcome of an operation
    that may raise, the exceptions the Python code raises, and the few
    Python sequence and string operations whose edge cases the code relies
    on (repetition by a possibly negative count, slicing with negative
    bounds, `str.split`, `len(set(...))`). */
module Common {

  datatype Option<T> = None | Some(value: T)

  /** A call either returns a value or raises one of the errors below. */
  datatype Result<T> = Success(value: T) | Failure(error: Error)

  /** The exceptions raised by the anonymiser, one constructor per raise
      site (or per implicit raise: a dict lookup, a tuple unpacking). */
  datatype Error =
    | DuplicatedColumnNames            // ValueError in DataAutoDetecter.__init__
    | UnknownColumnName                // AttributeError in change_property
    | UnknownColumnType(approved: seq<string>)
    | UnknownInformationType(approved: seq<string>)
    | UnknownSensitivityType(approved: seq<string>)
    | UnknownPropertyType
    | KeyError(key: string)            // a missing key in one of the masking tables
    | TransformerNotFound              // ValueError in get_transformer_from_name
    | UnpackError(parts: nat)          // `a, b = s.split('@')` with parts != 2

  function Min(a: int, b: int): int { if a <= b then a else b }
  function Max(a: int, b: int): int { if a <= b then b else a }

  /** Python's `c * k` for a one-character string: empty when `k <= 0`. */
  function Repeat(c: char, k: int): (r: string)
    ensures |r| == Max(k, 0)
    ensures forall i :: 0 <= i < |r| ==> r[i] == c
  {
    if k <= 0 then [] else seq(k, _ => c)
  }

  /** Python's `s[:n]`: a negative `n` counts from the end, and a bound
      beyond the string is clipped. */
  function SliceTo(s: string, n: int): (r: string)
    ensures n >= 0 ==> r == s[..Min(n, |s|)]
    ensures n < 0 ==> r == s[..Max(|s| + n, 0)]
  {
    if n >= 0 then s[..Min(n, |s|)] else s[..Max(|s| + n, 0)]
  }

  /** Python's `s[n:]`, with the same conventions as `SliceTo`. */
  function SliceFrom(s: string, n: int): (r: string)
    ensures n >= 0 ==> r == s[Min(n, |s|)..]
    ensures n < 0 ==> r == s[Max(|s| + n, 0)..]
  {
    if n >= 0 then s[Min(n, |s|)..] else s[Max(|s| + n, 0)..]
  }

  /** Number of occurrences of `c` in `s`. */
  function Count(s: string, c: char): nat
  {
    if s == [] then 0 else (if s[0] == c then 1 else 0) + Count(s[1..], c)
  }

  lemma {:induction false} CountZero(s: string, c: char)
    ensures Count(s, c) == 0 <==> c !in s
  {
    if s != [] {
      CountZero(s[1..], c);
      assert s == [s[0]] + s[1..];
    }
  }

  /** Python's `s.split(sep)` for a one-character separator: always at
      least one part, one more part than there are separators. */
  function Split(s: string, sep: char): (parts: seq<string>)
    ensures |parts| == Count(s, sep) + 1
  {
    if s == [] then [""]
    else
      var rest := Split(s[1..], sep);
      if s[0] == sep then [""] + rest
      else [[s[0]] + rest[0]] + rest[1..]
  }

  /** Python's `sep.join(parts)`. */
  function Join(parts: seq<string>, sep: char): string
  {
    if parts == [] then ""
    else if |parts| == 1 then parts[0]
    else parts[0] + [sep] + Join(parts[1..], sep)
  }

  /** Splitting and joining again gives back the string. */
  lemma {:induction false} SplitJoin(s: string, sep: char)
    ensures Join(Split(s, sep), sep) == s
  {
    if s != [] {
      var rest := Split(s[1..], sep);
      SplitJoin(s[1..], sep);
      assert s == [s[0]] + s[1..];
      if s[0] == sep {
        var parts := [""] + rest;
        assert parts[1..] == rest;
        assert Join(parts, sep) == "" + [sep] + Join(rest, sep);
      } else {
        var parts := [[s[0]] + rest[0]] + rest[1..];
        if |rest| == 1 {
          assert Join(parts, sep) == [s[0]] + Join(rest, sep);
        } else {
          assert parts[1..] == rest[1..];
          assert Join(parts, sep) == [s[0]] + Join(rest, sep);
        }
      }
    }
  }

  /** No part of a split contains the separator. */
  lemma {:induction false} SplitPartsFree(s: string, sep: char)
    ensures forall k :: 0 <= k < |Split(s, sep)| ==> sep !in Split(s, sep)[k]
  {
    if s != [] {
      var rest := Split(s[1..], sep);
      SplitPartsFree(s[1..], sep);
      var parts := Split(s, sep);
      forall k | 0 <= k < |parts| ensures sep !in parts[k] {
        if s[0] == sep {
          assert parts == [""] + rest;
          if k > 0 { assert parts[k] == rest[k - 1]; }
        } else {
          assert parts == [[s[0]] + rest[0]] + rest[1..];
          if k > 0 { assert parts[k] == rest[k]; }
          else { assert sep !in rest[0]; }
        }
      }
    }
  }

  /** A string without the separator splits into itself alone. */
  lemma {:induction false} SplitWithoutSeparator(s: string, sep: char)
    requires sep !in s
    ensures Split(s, sep) == [s]
  {
    if s != [] {
      SplitWithoutSeparator(s[1..], sep);
      assert [s[0]] + s[1..] == s;
    }
  }

  /** A string with exactly one separator splits around it. */
  lemma {:induction false} SplitAround(u: string, d: string, sep: char)
    requires sep !in u && sep !in d
    ensures Split(u + [sep] + d, sep) == [u, d]
  {
    var s := u + [sep] + d;
    if u == [] {
      assert s == [sep] + d && s[1..] == d;
      SplitWithoutSeparator(d, sep);
    } else {
      assert s[1..] == u[1..] + [sep] + d;
      SplitAround(u[1..], d, sep);
      assert [s[0]] + u[1..] == u;
    }
  }

  /** The distinct values of a sequence, as pandas' `unique()` collects them. */
  function Elements<T>(s: seq<T>): set<T>
  {
    set x | x in s
  }

  predicate NoDuplicates<T(==)>(s: seq<T>)
  {
    forall i, j :: 0 <= i < j < |s| ==> s[i] != s[j]
  }

  /** `len(s.unique()) == len(s)` holds exactly when no value repeats. */
  lemma {:induction false} DistinctCount<T>(s: seq<T>)
    ensures |Elements(s)| <= |s|
    ensures |Elements(s)| == |s| <==> NoDuplicates(s)
  {
    if s == [] {
      assert Elements(s) == {};
    } else {
      var init, last := s[..|s| - 1], s[|s| - 1];
      DistinctCount(init);
      assert s == init + [last];
      assert Elements(s) == Elements(init) + {last};
      if last in init {
        var j :| 0 <= j < |init| && init[j] == last;
        assert s[j] == s[|s| - 1];
        assert Elements(s) == Elements(init);
      } else {
        assert last !in Elements(init);
        assert |Elements(s)| == |Elements(init)| + 1;
        if NoDuplicates(init) {
          forall i, j | 0 <= i < j < |s| ensures s[i] != s[j] {
            if j == |s| - 1 { assert s[i] == init[i]; }
            else { assert s[i] == init[i] && s[j] == init[j]; }
          }
        } else {
          var i, j :| 0 <= i < j < |init| && init[i] == init[j];
          assert s[i] == s[j];
        }
      }
    }
  }

  /** The position of a name in a sequence of distinct names. */
  function IndexOf<T(==)>(s: seq<T>, x: T): (i: nat)
    requires x in s
    ensures i < |s| && s[i] == x
    ensures forall j :: 0 <= j < i ==> s[j] != x
  {
    if s[0] == x then 0 else 1 + IndexOf(s[1..], x)
  }
}
