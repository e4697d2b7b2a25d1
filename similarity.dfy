/** The "same plate" predicates: `DB._is_similar_plate` (database.py), the
    length-tiered rule used by the store, and `is_plate_similar` (utils.py).
    Both rest on the Levenshtein edit distance, defined here, and on
    `Levenshtein.ratio`, a library function whose formula is not part of this
    model: it is passed in as a function known only to return values in
    [0, 1]. */
module Similarity {
  import opened Wrappers
  import opened Text

  function Min3(a: nat, b: nat, c: nat): (m: nat)
    ensures m <= a && m <= b && m <= c && (m == a || m == b || m == c)
  {
    if a <= b && a <= c then a else if b <= c then b else c
  }

  function Max(a: int, b: int): int {
    if a >= b then a else b
  }

  /** `Levenshtein.distance(a, b)`: the least number of single-character
      insertions, deletions and substitutions turning `a` into `b`. */
  function EditDistance(a: string, b: string): (d: nat)
    decreases |a| + |b|
  {
    if |a| == 0 then |b|
    else if |b| == 0 then |a|
    else Min3(EditDistance(a[1..], b) + 1,
              EditDistance(a, b[1..]) + 1,
              EditDistance(a[1..], b[1..]) + (if a[0] == b[0] then 0 else 1))
  }

  /** The distance is at least the difference of the lengths and at most
      the longer length. */
  lemma {:induction false} EditDistanceBounds(a: string, b: string)
    ensures EditDistance(a, b) >= |a| - |b| && EditDistance(a, b) >= |b| - |a|
    ensures EditDistance(a, b) <= Max(|a|, |b|)
    decreases |a| + |b|
  {
    if |a| > 0 && |b| > 0 {
      EditDistanceBounds(a[1..], b);
      EditDistanceBounds(a, b[1..]);
      EditDistanceBounds(a[1..], b[1..]);
    }
  }

  lemma {:induction false} EditDistanceSymmetric(a: string, b: string)
    ensures EditDistance(a, b) == EditDistance(b, a)
    decreases |a| + |b|
  {
    if |a| > 0 && |b| > 0 {
      EditDistanceSymmetric(a[1..], b);
      EditDistanceSymmetric(a, b[1..]);
      EditDistanceSymmetric(a[1..], b[1..]);
    }
  }

  lemma {:induction false} EditDistanceSelf(a: string)
    ensures EditDistance(a, a) == 0
  {
    if |a| > 0 {
      EditDistanceSelf(a[1..]);
    }
  }

  /** Distance zero only between equal texts. */
  lemma {:induction false} EditDistanceZero(a: string, b: string)
    requires EditDistance(a, b) == 0
    ensures a == b
    decreases |a| + |b|
  {
    if |a| > 0 && |b| > 0 {
      assert EditDistance(a[1..], b[1..]) == 0 && a[0] == b[0];
      EditDistanceZero(a[1..], b[1..]);
      assert a == [a[0]] + a[1..] && b == [b[0]] + b[1..];
    }
  }

  /** `Levenshtein.ratio`: a similarity score in [0, 1]; its formula is not
      modelled. */
  type RatioFn = f: (string, string) -> real | forall a, b :: 0.0 <= f(a, b) <= 1.0
    witness (a: string, b: string) => 0.0

  ghost predicate SymmetricRatio(ratio: RatioFn) {
    forall a, b :: ratio(a, b) == ratio(b, a)
  }

  /** The two thresholds of the predicate (settings `levenshtein_threshold`
      and `similarity_ratio`; a `float` setting, so the distance threshold is
      a real number). */
  datatype Thresholds = Thresholds(distance: real, ratio: real)

  /** The values the store falls back to when a setting is missing. */
  const DefaultThresholds := Thresholds(2.0, 0.8)

  /** The distance between the stripped plate texts, as the predicate
      measures it. */
  function PlateDistance(p1: string, p2: string): nat {
    EditDistance(Strip(p1), Strip(p2))
  }

  /** `DB._is_similar_plate(p1, p2, threshold_distance, threshold_ratio)`:
      empty text is never similar; otherwise the stripped texts are compared,
      with a fixed distance of one when either is at most four characters
      long, the distance threshold when either is at most seven, and the
      distance threshold or the ratio threshold beyond that. */
  function IsSimilarPlate(p1: string, p2: string, t: Thresholds, ratio: RatioFn): (r: bool)
    ensures r ==> |p1| > 0 && |p2| > 0
  {
    if |p1| == 0 || |p2| == 0 then false
    else
      var a, b := Strip(p1), Strip(p2);
      var d := EditDistance(a, b);
      if |a| <= 4 || |b| <= 4 then d <= 1
      else if |a| <= 7 || |b| <= 7 then d as real <= t.distance
      else d as real <= t.distance || ratio(a, b) >= t.ratio
  }

  /** `_is_similar_plate` with its thresholds fixed, as a value: the store
      applies it to many rows, and its body is unfolded only where a proof
      needs it. */
  function Matcher(t: Thresholds, ratio: RatioFn): (string, string) -> bool {
    (a: string, b: string) => IsSimilarPlate(a, b, t, ratio)
  }

  /** The three length tiers, stated for non-empty text. */
  lemma SimilarityTiers(p1: string, p2: string, t: Thresholds, ratio: RatioFn)
    requires |p1| > 0 && |p2| > 0
    ensures var a, b := Strip(p1), Strip(p2);
      (|a| <= 4 || |b| <= 4 ==> (IsSimilarPlate(p1, p2, t, ratio) <==> EditDistance(a, b) <= 1))
      && (|a| > 4 && |b| > 4 && (|a| <= 7 || |b| <= 7) ==>
            (IsSimilarPlate(p1, p2, t, ratio) <==> EditDistance(a, b) as real <= t.distance))
      && (|a| > 7 && |b| > 7 ==>
            (IsSimilarPlate(p1, p2, t, ratio) <==>
               EditDistance(a, b) as real <= t.distance || ratio(a, b) >= t.ratio))
  {
  }

  /** For short plates the verdict does not depend on the thresholds or the
      ratio function at all. */
  lemma ShortPlatesIgnoreSettings(p1: string, p2: string, t1: Thresholds, t2: Thresholds,
                                  r1: RatioFn, r2: RatioFn)
    requires |Strip(p1)| <= 4 || |Strip(p2)| <= 4
    ensures IsSimilarPlate(p1, p2, t1, r1) == IsSimilarPlate(p1, p2, t2, r2)
  {
  }

  /** "Symmetric in result": swapping the plates does not change the verdict
      (given a symmetric ratio). */
  lemma SimilarSymmetric(p1: string, p2: string, t: Thresholds, ratio: RatioFn)
    requires SymmetricRatio(ratio)
    ensures IsSimilarPlate(p1, p2, t, ratio) == IsSimilarPlate(p2, p1, t, ratio)
  {
    EditDistanceSymmetric(Strip(p1), Strip(p2));
  }

  /** Non-empty text is similar to itself whenever the distance threshold is
      not negative. */
  lemma SimilarReflexive(p: string, t: Thresholds, ratio: RatioFn)
    requires |p| > 0 && t.distance >= 0.0
    ensures IsSimilarPlate(p, p, t, ratio)
  {
    EditDistanceSelf(Strip(p));
  }

  /** With a distance threshold below one, plates longer than four characters
      are similar only when their stripped texts are equal or (beyond seven
      characters) the ratio threshold is met. */
  lemma SubUnitThresholdMeansEqual(p1: string, p2: string, t: Thresholds, ratio: RatioFn)
    requires t.distance < 1.0 && IsSimilarPlate(p1, p2, t, ratio)
    requires |Strip(p1)| > 4 && |Strip(p2)| > 4
    requires |Strip(p1)| <= 7 || ratio(Strip(p1), Strip(p2)) < t.ratio
    ensures Strip(p1) == Strip(p2)
  {
    var a, b := Strip(p1), Strip(p2);
    assert EditDistance(a, b) == 0;
    EditDistanceZero(a, b);
  }

  /** Plates whose stripped lengths differ by more than one are never similar
      when one of them is short. */
  lemma LengthGapRejectsShort(p1: string, p2: string, t: Thresholds, ratio: RatioFn)
    requires |Strip(p1)| <= 4 && (|Strip(p2)| > |Strip(p1)| + 1 || |Strip(p1)| > |Strip(p2)| + 1)
    ensures !IsSimilarPlate(p1, p2, t, ratio)
  {
    EditDistanceBounds(Strip(p1), Strip(p2));
  }

  // ---------------------------------------------------------------------
  // utils.is_plate_similar

  /** How `is_plate_similar` comments on the confidences of two close plates. */
  datatype ConfidenceRemark =
    | NoConfidences                                  // either confidence missing
    | MuchMoreConfident(first: bool, higher: real)   // difference above 15 points
    | ComparableConfidence

  /** The explanation string of `is_plate_similar`, without its float
      formatting. */
  datatype SimilarityNote =
    | IdenticalPlates
    | CloseMatch(distance: nat, ratio: real, remark: ConfidenceRemark)
    | HighRatio(ratio: real)
    | DifferentPlates(distance: nat, ratio: real)

  function Abs(x: real): real {
    if x < 0.0 then -x else x
  }

  function ConfidenceRemarkOf(c1: Option<real>, c2: Option<real>): (r: ConfidenceRemark)
    ensures r.MuchMoreConfident? <==> c1.Some? && c2.Some? && Abs(c1.value - c2.value) > 15.0
    ensures r.MuchMoreConfident? ==>
              r.first == (c1.value >= c2.value)
              && r.higher == (if c1.value >= c2.value then c1.value else c2.value)
    ensures r.ComparableConfidence? <==> c1.Some? && c2.Some? && Abs(c1.value - c2.value) <= 15.0
    ensures r.NoConfidences? <==> c1.None? || c2.None?
  {
    if c1.Some? && c2.Some? then
      var higher := if c1.value >= c2.value then c1.value else c2.value;
      if Abs(c1.value - c2.value) > 15.0 then MuchMoreConfident(c1.value >= c2.value, higher)
      else ComparableConfidence
    else NoConfidences
  }

  /** `is_plate_similar(plate1, plate2, confidence1, confidence2)`: identical
      text, a distance of at most two, or (both at least five characters
      long) a ratio of at least 0.8. No stripping here. */
  function PlateSimilarity(p1: string, p2: string, c1: Option<real>, c2: Option<real>,
                           ratio: RatioFn): (bool, SimilarityNote)
  {
    if p1 == p2 then (true, IdenticalPlates)
    else
      var d, q := EditDistance(p1, p2), ratio(p1, p2);
      if d <= 2 then (true, CloseMatch(d, q, ConfidenceRemarkOf(c1, c2)))
      else if |p1| >= 5 && |p2| >= 5 && q >= 0.8 then (true, HighRatio(q))
      else (false, DifferentPlates(d, q))
  }

  /** The verdict of `is_plate_similar`, as one condition. */
  lemma PlateSimilarityVerdict(p1: string, p2: string, c1: Option<real>, c2: Option<real>,
                               ratio: RatioFn)
    ensures PlateSimilarity(p1, p2, c1, c2, ratio).0 <==>
      EditDistance(p1, p2) <= 2 || (|p1| >= 5 && |p2| >= 5 && ratio(p1, p2) >= 0.8)
  {
    if p1 == p2 {
      EditDistanceSelf(p1);
    }
  }

  /** The verdict does not depend on the order of the plates (given a
      symmetric ratio), even though the explanation names "first" or
      "second". */
  lemma PlateSimilaritySymmetric(p1: string, p2: string, c1: Option<real>, c2: Option<real>,
                                 ratio: RatioFn)
    requires SymmetricRatio(ratio)
    ensures PlateSimilarity(p1, p2, c1, c2, ratio).0 == PlateSimilarity(p2, p1, c2, c1, ratio).0
  {
    EditDistanceSymmetric(p1, p2);
  }

  /** On text without surrounding whitespace and with the default thresholds,
      every pair the store's predicate accepts is also accepted by
      `is_plate_similar` (the converse fails, e.g. for short plates at
      distance two). */
  lemma StorePredicateImpliesUtilsPredicate(p1: string, p2: string, ratio: RatioFn)
    requires Strip(p1) == p1 && Strip(p2) == p2
    requires IsSimilarPlate(p1, p2, DefaultThresholds, ratio)
    ensures PlateSimilarity(p1, p2, None, None, ratio).0
  {
  }
}
