/** The response-variation measure of the temperature exercise
    (`answers/exercises/temperature.py`): a character-difference count
    between two responses, scaled by the prompt length and classified as
    High, Medium or Low variation. */
module Temperature {

  function Min(a: int, b: int): int
  {
    if a <= b then a else b
  }

  function Max(a: int, b: int): int
  {
    if a >= b then a else b
  }

  function Abs(x: int): nat
  {
    if x >= 0 then x else -x
  }

  /** The positional mismatches among the first n characters. */
  function MismatchesBelow(s1: string, s2: string, n: nat): nat
    requires n <= |s1| && n <= |s2|
  {
    if n == 0 then 0
    else MismatchesBelow(s1, s2, n - 1) + (if s1[n - 1] != s2[n - 1] then 1 else 0)
  }

  /** `sum(c1 != c2 for c1, c2 in zip(s1, s2))`: `zip` stops at the shorter string. */
  function Mismatches(s1: string, s2: string): (r: nat)
    ensures r == |set i | 0 <= i < Min(|s1|, |s2|) && s1[i] != s2[i]|
    ensures r <= Min(|s1|, |s2|)
  {
    MismatchesBelowCountsPositions(s1, s2, Min(|s1|, |s2|));
    MismatchesBelowBound(s1, s2, Min(|s1|, |s2|));
    MismatchesBelow(s1, s2, Min(|s1|, |s2|))
  }

  /** `count_differences(s1, s2)`: the mismatches over the common length
      plus the difference of the lengths. */
  function CountDifferences(s1: string, s2: string): (d: nat)
    ensures d == |set i | 0 <= i < Min(|s1|, |s2|) && s1[i] != s2[i]| + Abs(|s1| - |s2|)
  {
    Mismatches(s1, s2) + Abs(|s1| - |s2|)
  }

  /** The mismatch count is the number of differing positions. */
  lemma {:induction false} MismatchesBelowCountsPositions(s1: string, s2: string, n: nat)
    requires n <= |s1| && n <= |s2|
    ensures MismatchesBelow(s1, s2, n) == |set i | 0 <= i < n && s1[i] != s2[i]|
  {
    if n > 0 {
      MismatchesBelowCountsPositions(s1, s2, n - 1);
      var below := set i | 0 <= i < n - 1 && s1[i] != s2[i];
      var upTo := set i | 0 <= i < n && s1[i] != s2[i];
      if s1[n - 1] != s2[n - 1] {
        assert upTo == below + {n - 1};
      } else {
        assert upTo == below;
      }
    }
  }

  lemma {:induction false} MismatchesBelowBound(s1: string, s2: string, n: nat)
    requires n <= |s1| && n <= |s2|
    ensures MismatchesBelow(s1, s2, n) <= n
  {
    if n > 0 {
      MismatchesBelowBound(s1, s2, n - 1);
    }
  }

  lemma {:induction false} MismatchesBelowSymmetric(s1: string, s2: string, n: nat)
    requires n <= |s1| && n <= |s2|
    ensures MismatchesBelow(s1, s2, n) == MismatchesBelow(s2, s1, n)
  {
    if n > 0 {
      MismatchesBelowSymmetric(s1, s2, n - 1);
    }
  }

  /** No mismatch among the first n characters exactly when they agree. */
  lemma {:induction false} MismatchesBelowZero(s1: string, s2: string, n: nat)
    requires n <= |s1| && n <= |s2|
    ensures MismatchesBelow(s1, s2, n) == 0 <==> s1[..n] == s2[..n]
  {
    if n > 0 {
      MismatchesBelowZero(s1, s2, n - 1);
      assert s1[..n] == s1[..n - 1] + [s1[n - 1]];
      assert s2[..n] == s2[..n - 1] + [s2[n - 1]];
      if s1[..n] == s2[..n] {
        assert s1[..n - 1] == s1[..n][..n - 1] && s2[..n - 1] == s2[..n][..n - 1];
        assert s1[n - 1] == s1[..n][n - 1] && s2[n - 1] == s2[..n][n - 1];
      }
    }
  }

  /** A response does not differ from itself. */
  lemma CountDifferencesSelf(s: string)
    ensures CountDifferences(s, s) == 0
  {
    MismatchesBelowZero(s, s, |s|);
  }

  /** Differences are zero exactly for equal strings. */
  lemma CountDifferencesZero(s1: string, s2: string)
    ensures CountDifferences(s1, s2) == 0 <==> s1 == s2
  {
    var n := Min(|s1|, |s2|);
    MismatchesBelowZero(s1, s2, n);
    if CountDifferences(s1, s2) == 0 {
      assert |s1| == |s2| && s1 == s1[..n] && s2 == s2[..n];
    }
    if s1 == s2 {
      CountDifferencesSelf(s1);
    }
  }

  lemma CountDifferencesSymmetric(s1: string, s2: string)
    ensures CountDifferences(s1, s2) == CountDifferences(s2, s1)
  {
    MismatchesBelowSymmetric(s1, s2, Min(|s1|, |s2|));
  }

  /** At least the length difference and at most the longer length. */
  lemma CountDifferencesBounds(s1: string, s2: string)
    ensures Abs(|s1| - |s2|) <= CountDifferences(s1, s2) <= Max(|s1|, |s2|)
  {
    MismatchesBelowBound(s1, s2, Min(|s1|, |s2|));
  }

  /** Whether position i counts as a difference: a mismatch where both
      strings have a character, a difference where only one has. */
  function DiffAt(s1: string, s2: string, i: nat): nat
  {
    if i < |s1| && i < |s2| then (if s1[i] != s2[i] then 1 else 0)
    else if i < |s1| || i < |s2| then 1
    else 0
  }

  /** The differences over the first n positions. */
  function DiffBelow(s1: string, s2: string, n: nat): nat
  {
    if n == 0 then 0 else DiffBelow(s1, s2, n - 1) + DiffAt(s1, s2, n - 1)
  }

  /** The character-difference count summed position by position, up to any
      n at least the longer length. */
  lemma {:induction false} DiffBelowIsCountDifferences(s1: string, s2: string, n: nat)
    ensures n <= Min(|s1|, |s2|) ==> DiffBelow(s1, s2, n) == MismatchesBelow(s1, s2, n)
    ensures Min(|s1|, |s2|) <= n <= Max(|s1|, |s2|) ==>
      DiffBelow(s1, s2, n) == Mismatches(s1, s2) + n - Min(|s1|, |s2|)
    ensures Max(|s1|, |s2|) <= n ==> DiffBelow(s1, s2, n) == CountDifferences(s1, s2)
  {
    if n > 0 {
      DiffBelowIsCountDifferences(s1, s2, n - 1);
    }
  }

  lemma {:induction false} DiffBelowTriangle(a: string, b: string, c: string, n: nat)
    ensures DiffBelow(a, c, n) <= DiffBelow(a, b, n) + DiffBelow(b, c, n)
  {
    if n > 0 {
      DiffBelowTriangle(a, b, c, n - 1);
    }
  }

  /** The character-difference count is a distance: it satisfies the
      triangle inequality. */
  lemma CountDifferencesTriangle(a: string, b: string, c: string)
    ensures CountDifferences(a, c) <= CountDifferences(a, b) + CountDifferences(b, c)
  {
    var n := Max(|a|, Max(|b|, |c|));
    DiffBelowIsCountDifferences(a, c, n);
    DiffBelowIsCountDifferences(a, b, n);
    DiffBelowIsCountDifferences(b, c, n);
    DiffBelowTriangle(a, b, c, n);
  }

  /** `diff / max(len(prompt), 1)`: scaled by the prompt's length, never by 0. */
  function Ratio(diff: nat, prompt: string): (r: real)
    ensures r >= 0.0
    ensures r * Max(|prompt|, 1) as real == diff as real
  {
    diff as real / Max(|prompt|, 1) as real
  }

  datatype Variation = High | Medium | Low

  /** `if ratio > 0.7: High elif ratio > 0.4: Medium else: Low` */
  function Classify(ratio: real): (v: Variation)
    ensures v == High <==> ratio > 0.7
    ensures v == Medium <==> 0.4 < ratio <= 0.7
    ensures v == Low <==> ratio <= 0.4
  {
    if ratio > 0.7 then High
    else if ratio > 0.4 then Medium
    else Low
  }

  function VariationRank(v: Variation): nat
  {
    match v
    case Low => 0
    case Medium => 1
    case High => 2
  }

  /** A larger ratio never gives a lower label. */
  lemma ClassifyMonotone(r1: real, r2: real)
    requires r1 <= r2
    ensures VariationRank(Classify(r1)) <= VariationRank(Classify(r2))
  {
  }

  /** Comparing the ratio with a threshold is comparing the difference count
      with a multiple of the prompt length. */
  lemma RatioAbove(diff: nat, prompt: string, c: real)
    ensures Ratio(diff, prompt) > c <==> diff as real > c * Max(|prompt|, 1) as real
  {
    var m := Max(|prompt|, 1) as real;
    var r := Ratio(diff, prompt);
    if r > c {
      assert r * m > c * m;
    } else {
      assert r * m <= c * m;
    }
  }

  /** The label of two responses to a prompt, in whole numbers: High when
      the differences exceed 70% of the prompt length, Medium when they
      exceed 40%, Low otherwise. */
  function VariationOf(prev: string, curr: string, prompt: string): (v: Variation)
    ensures var d := CountDifferences(prev, curr); var m := Max(|prompt|, 1);
      && (v == High <==> 10 * d > 7 * m)
      && (v == Medium <==> 4 * m < 10 * d <= 7 * m)
      && (v == Low <==> 10 * d <= 4 * m)
  {
    var d := CountDifferences(prev, curr);
    RatioAbove(d, prompt, 0.7);
    RatioAbove(d, prompt, 0.4);
    Classify(Ratio(d, prompt))
  }

  /** Two identical responses show Low variation. */
  lemma IdenticalResponsesAreLow(response: string, prompt: string)
    ensures VariationOf(response, response, prompt) == Low
  {
    CountDifferencesSelf(response);
  }
}
