/**
 * The name comparator of the KYC service (calculateNameSimilarity and
 * levenshteinDistance in src/services/kycService.ts). Names are lower-cased
 * and stripped of whitespace, an edit-distance table is filled, and the
 * names count as similar when `1 - distance / max(length)` is at least 0.8.
 */
module NameSimilarity {

  /** The characters of JavaScript's `\s` class. */
  predicate IsWhitespace(c: char)
  {
    || c == '\t' || c == '\n' || c == '\U{000B}' || c == '\U{000C}' || c == '\r' || c == ' '
    || c == '\U{00A0}' || c == '\U{1680}' || ('\U{2000}' <= c <= '\U{200A}')
    || c == '\U{2028}' || c == '\U{2029}' || c == '\U{202F}' || c == '\U{205F}'
    || c == '\U{3000}' || c == '\U{FEFF}'
  }

  predicate IsUpper(c: char)
  {
    'A' <= c <= 'Z'
  }

  /** Lower-casing of one character (the ASCII letters; other characters are kept). */
  function ToLower(c: char): (d: char)
    ensures !IsUpper(d)
    ensures IsWhitespace(d) == IsWhitespace(c)
  {
    if IsUpper(c) then (c as int + 32) as char else c
  }

  /** `name.toLowerCase()` */
  function LowerCase(s: string): (t: string)
    ensures |t| == |s|
  {
    seq(|s|, i requires 0 <= i < |s| => ToLower(s[i]))
  }

  /** `.replace(/\s+/g, '')` */
  function RemoveWhitespace(s: string): (t: string)
    ensures |t| <= |s|
    ensures forall i :: 0 <= i < |t| ==> !IsWhitespace(t[i])
  {
    if s == [] then []
    else (if IsWhitespace(s[0]) then [] else [s[0]]) + RemoveWhitespace(s[1..])
  }

  /** The `normalize` helper: lower-case, then drop all whitespace. */
  function Normalize(name: string): string
  {
    RemoveWhitespace(LowerCase(name))
  }

  lemma {:induction false} RemoveWhitespaceConcat(a: string, b: string)
    ensures RemoveWhitespace(a + b) == RemoveWhitespace(a) + RemoveWhitespace(b)
    decreases |a|
  {
    if a == [] {
      assert a + b == b;
    } else {
      assert (a + b)[1..] == a[1..] + b;
      RemoveWhitespaceConcat(a[1..], b);
    }
  }

  lemma {:induction false} RemoveWhitespaceLowered(s: string)
    ensures forall i :: 0 <= i < |RemoveWhitespace(LowerCase(s))| ==> !IsUpper(RemoveWhitespace(LowerCase(s))[i])
    decreases |s|
  {
    if s != [] {
      assert LowerCase(s)[1..] == LowerCase(s[1..]);
      RemoveWhitespaceLowered(s[1..]);
    }
  }

  /** A normalised name holds neither whitespace nor upper-case letters. */
  lemma NormalizeShape(name: string)
    ensures forall i :: 0 <= i < |Normalize(name)| ==> !IsWhitespace(Normalize(name)[i]) && !IsUpper(Normalize(name)[i])
  {
    RemoveWhitespaceLowered(name);
  }

  /** Inserting a whitespace character anywhere in a name does not change its normal form. */
  lemma NormalizeIgnoresWhitespace(a: string, c: char, b: string)
    requires IsWhitespace(c)
    ensures Normalize(a + [c] + b) == Normalize(a + b)
  {
    assert LowerCase(a + [c] + b) == LowerCase(a) + [ToLower(c)] + LowerCase(b);
    assert LowerCase(a + b) == LowerCase(a) + LowerCase(b);
    RemoveWhitespaceConcat(LowerCase(a) + [ToLower(c)], LowerCase(b));
    RemoveWhitespaceConcat(LowerCase(a), [ToLower(c)]);
    RemoveWhitespaceConcat(LowerCase(a), LowerCase(b));
  }

  /** Two names that differ only in letter case have the same normal form. */
  lemma NormalizeIgnoresCase(s: string, t: string)
    requires |s| == |t|
    requires forall i :: 0 <= i < |s| ==> ToLower(s[i]) == ToLower(t[i])
    ensures Normalize(s) == Normalize(t)
  {
    assert LowerCase(s) == LowerCase(t);
  }

  function Min3(a: nat, b: nat, c: nat): (m: nat)
    ensures m <= a && m <= b && m <= c
    ensures m == a || m == b || m == c
  {
    if a <= b && a <= c then a else if b <= c then b else c
  }

  function Max(a: nat, b: nat): nat
  {
    if a >= b then a else b
  }

  /**
   * The edit distance the table computes, read off its last row and column:
   * equal last characters cost nothing, otherwise the cheapest of a
   * substitution, a deletion and an insertion.
   */
  function Distance(a: string, b: string): nat
    decreases |a| + |b|
  {
    if |a| == 0 then |b|
    else if |b| == 0 then |a|
    else if a[|a| - 1] == b[|b| - 1] then Distance(a[..|a| - 1], b[..|b| - 1])
    else Min3(Distance(a[..|a| - 1], b[..|b| - 1]) + 1,
              Distance(a[..|a| - 1], b) + 1,
              Distance(a, b[..|b| - 1]) + 1)
  }

  /** The table recurrence for cell (i, j), stated on prefixes. */
  lemma DistanceStep(a: string, b: string, i: nat, j: nat)
    requires 1 <= i <= |a| && 1 <= j <= |b|
    ensures Distance(a[..i], b[..j]) ==
      if a[i - 1] == b[j - 1] then Distance(a[..i - 1], b[..j - 1])
      else Min3(Distance(a[..i - 1], b[..j - 1]) + 1,
                Distance(a[..i - 1], b[..j]) + 1,
                Distance(a[..i], b[..j - 1]) + 1)
  {
    assert a[..i][..i - 1] == a[..i - 1];
    assert b[..j][..j - 1] == b[..j - 1];
    assert a[..i][i - 1] == a[i - 1];
    assert b[..j][j - 1] == b[j - 1];
  }

  /** A string is at distance 0 from itself. */
  lemma {:induction false} DistanceSelf(s: string)
    ensures Distance(s, s) == 0
    decreases |s|
  {
    if |s| > 0 {
      DistanceSelf(s[..|s| - 1]);
    }
  }

  /** The distance is symmetric. */
  lemma {:induction false} DistanceSymmetric(a: string, b: string)
    ensures Distance(a, b) == Distance(b, a)
    decreases |a| + |b|
  {
    if |a| > 0 && |b| > 0 {
      DistanceSymmetric(a[..|a| - 1], b[..|b| - 1]);
      DistanceSymmetric(a[..|a| - 1], b);
      DistanceSymmetric(a, b[..|b| - 1]);
    }
  }

  /** The distance lies between the difference of the lengths and the larger length. */
  lemma {:induction false} DistanceBounds(a: string, b: string)
    ensures Distance(a, b) <= Max(|a|, |b|)
    ensures |a| - |b| <= Distance(a, b) && |b| - |a| <= Distance(a, b)
    decreases |a| + |b|
  {
    if |a| > 0 && |b| > 0 {
      DistanceBounds(a[..|a| - 1], b[..|b| - 1]);
      DistanceBounds(a[..|a| - 1], b);
      DistanceBounds(a, b[..|b| - 1]);
    }
  }

  /** The returned similarity: NaN (0/0) or the fraction `num / den` with `den > 0`. */
  datatype Ratio = NaN | Fraction(num: int, den: nat)

  /** `1 - distance / maxLength` */
  function SimilarityRatio(distance: nat, maxLength: nat): (r: Ratio)
    ensures maxLength == 0 <==> r.NaN?
    ensures r.Fraction? ==> r.den == maxLength && r.num == maxLength - distance
  {
    if maxLength == 0 then NaN else Fraction(maxLength as int - distance, maxLength)
  }

  /** `similarity >= 0.8`; every comparison with NaN is false. */
  predicate AtLeastEightyPercent(r: Ratio)
  {
    r.Fraction? && 5 * r.num >= 4 * r.den
  }

  /** The result of `calculateNameSimilarity(name1, name2)`. */
  predicate NamesSimilar(name1: string, name2: string)
  {
    var a := Normalize(name1);
    var b := Normalize(name2);
    AtLeastEightyPercent(SimilarityRatio(Distance(a, b), Max(|a|, |b|)))
  }

  /** Rows 0 .. rows-1 of the table hold the distances between the prefixes. */
  ghost predicate RowsFilled(str1: string, str2: string, dp: array2<nat>, rows: nat)
    requires dp.Length0 == |str1| + 1 && dp.Length1 == |str2| + 1 && rows <= |str1| + 1
    reads dp
  {
    forall r, c :: 0 <= r < rows && 0 <= c <= |str2| ==> dp[r, c] == Distance(str1[..r], str2[..c])
  }

  /** Column 0 holds `dp[k][0] = k` from row `from` on. */
  ghost predicate FirstColumnFrom(dp: array2<nat>, from: nat)
    requires dp.Length1 > 0
    reads dp
  {
    forall k :: from <= k < dp.Length0 ==> dp[k, 0] == k
  }

  /** The inner loop of the table: fills row i from rows i-1 and column 0. */
  method FillRow(str1: string, str2: string, dp: array2<nat>, i: nat)
    requires dp.Length0 == |str1| + 1 && dp.Length1 == |str2| + 1
    requires 1 <= i <= |str1|
    requires RowsFilled(str1, str2, dp, i) && FirstColumnFrom(dp, i)
    modifies dp
    ensures RowsFilled(str1, str2, dp, i + 1) && FirstColumnFrom(dp, i + 1)
  {
    var n := |str2|;
    assert dp[i, 0] == Distance(str1[..i], str2[..0]);
    for j := 1 to n + 1
      invariant RowsFilled(str1, str2, dp, i) && FirstColumnFrom(dp, i)
      invariant forall c :: 0 <= c < j ==> dp[i, c] == Distance(str1[..i], str2[..c])
    {
      DistanceStep(str1, str2, i, j);
      var cell: nat;
      if str1[i - 1] == str2[j - 1] {
        cell := dp[i - 1, j - 1];
      } else {
        cell := Min3(dp[i - 1, j - 1] + 1, dp[i - 1, j] + 1, dp[i, j - 1] + 1);
      }
      assert cell == Distance(str1[..i], str2[..j]);
      dp[i, j] := cell;
    }
  }

  /** `levenshteinDistance`: fills the (m+1)x(n+1) table and returns the ratio, not the distance. */
  method LevenshteinDistance(str1: string, str2: string) returns (r: Ratio)
    ensures r == SimilarityRatio(Distance(str1, str2), Max(|str1|, |str2|))
  {
    var m, n := |str1|, |str2|;
    var dp := new nat[m + 1, n + 1];
    for i := 0 to m + 1
      invariant forall k :: 0 <= k < i ==> dp[k, 0] == k
    {
      dp[i, 0] := i;
    }
    for j := 0 to n + 1
      invariant FirstColumnFrom(dp, 0)
      invariant forall k :: 0 <= k < j ==> dp[0, k] == k
    {
      dp[0, j] := j;
    }
    for i := 1 to m + 1
      invariant RowsFilled(str1, str2, dp, i) && FirstColumnFrom(dp, i)
    {
      FillRow(str1, str2, dp, i);
    }
    assert dp[m, n] == Distance(str1[..m], str2[..n]);
    assert str1[..m] == str1 && str2[..n] == str2;
    var maxLength := Max(m, n);
    r := if maxLength == 0 then NaN else Fraction(maxLength as int - dp[m, n], maxLength);
  }

  /** `calculateNameSimilarity` */
  method CalculateNameSimilarity(name1: string, name2: string) returns (similar: bool)
    ensures similar == NamesSimilar(name1, name2)
  {
    var ratio := LevenshteinDistance(Normalize(name1), Normalize(name2));
    similar := ratio.Fraction? && 5 * ratio.num >= 4 * ratio.den;
  }

  /** When some name is non-empty after normalisation, the ratio lies in [0, 1]. */
  lemma RatioInUnitInterval(a: string, b: string)
    requires |a| > 0 || |b| > 0
    ensures var r := SimilarityRatio(Distance(a, b), Max(|a|, |b|));
      r.Fraction? && 0 <= r.num <= r.den
  {
    DistanceBounds(a, b);
  }

  /**
   * For names not both empty after normalisation, "similar" is the integer
   * test `5 * distance <= max(length)`.
   */
  lemma SimilarIffFifth(name1: string, name2: string)
    requires |Normalize(name1)| > 0 || |Normalize(name2)| > 0
    ensures var a := Normalize(name1); var b := Normalize(name2);
      NamesSimilar(name1, name2) <==> 5 * Distance(a, b) <= Max(|a|, |b|)
  {
  }

  /** Two names that are empty after normalisation give NaN and are NOT similar. */
  lemma EmptyNamesNotSimilar(name1: string, name2: string)
    requires Normalize(name1) == [] && Normalize(name2) == []
    ensures SimilarityRatio(Distance(Normalize(name1), Normalize(name2)), 0).NaN?
    ensures !NamesSimilar(name1, name2)
  {
  }

  /** Names equal after normalisation (and not empty) give ratio 1 and are similar. */
  lemma EqualNormalFormsSimilar(name1: string, name2: string)
    requires Normalize(name1) == Normalize(name2) != []
    ensures var a := Normalize(name1);
      SimilarityRatio(Distance(a, a), |a|) == Fraction(|a|, |a|)
    ensures NamesSimilar(name1, name2)
  {
    DistanceSelf(Normalize(name1));
  }

  /** The comparator is symmetric. */
  lemma SimilarSymmetric(name1: string, name2: string)
    ensures NamesSimilar(name1, name2) == NamesSimilar(name2, name1)
  {
    DistanceSymmetric(Normalize(name1), Normalize(name2));
  }

  /** A name and its empty counterpart are never similar: the ratio is 0. */
  lemma EmptyAgainstNonEmpty(name1: string, name2: string)
    requires Normalize(name1) == [] && Normalize(name2) != []
    ensures !NamesSimilar(name1, name2)
  {
  }
}
