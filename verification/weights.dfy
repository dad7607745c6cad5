/**
 The weight calculator. Six importance ratings become a weight vector by
 dividing each rating by their total. Before the weighting stage the session
 holds a fixed default vector.
 */
module Weights {

  import opened Wrappers
  import opened Pillars

  /** Python raises ZeroDivisionError when the six ratings total 0. */
  datatype WeightError = ZeroTotal

  /** Sum of the six importance ratings. */
  function Total(ratings: PerPillar<nat>): nat
  {
    ratings.governance + ratings.quality + ratings.metadata
    + ratings.integration + ratings.analytics + ratings.security
  }

  /** Non-negative weights that sum to exactly 1. */
  predicate IsWeightVector(w: PerPillar<real>)
  {
    (forall p :: 0.0 <= w.Get(p)) && Sum(w) == 1.0
  }

  /** A rating offered by the answer options: 1 to 5. */
  predicate InRatingRange(x: int)
  {
    1 <= x <= 5
  }

  /** q is the quotient a / t. */
  predicate IsQuotient(q: real, a: real, t: real)
  {
    q * t == a
  }

  /**
   Python's true division of a rating by the total, written as the unique q
   with q * t == a so that callers reason about the product, not the division.
   */
  function Ratio(a: real, t: real): (q: real)
    requires 0.0 < t
    ensures q * t == a
  {
    assert IsQuotient(a / t, a, t);
    var q :| IsQuotient(q, a, t); q
  }

  /**
   The dynamic weights: each pillar's rating divided by the total. A zero
   total is the only error case; otherwise each weight times the total is
   that pillar's rating, and the weights form a weight vector.
   */
  function ComputeWeights(ratings: PerPillar<nat>): (r: Result<PerPillar<real>, WeightError>)
    ensures r.Failure? <==> Total(ratings) == 0
    ensures r.Success? ==> forall p :: r.value.Get(p) * Total(ratings) as real == ratings.Get(p) as real
    ensures r.Success? ==> IsWeightVector(r.value)
  {
    if Total(ratings) == 0 then Failure(ZeroTotal)
    else
      NormaliseIsWeightVector(ratings);
      Success(Normalise(ratings))
  }

  /** Every rating divided by the (positive) total. */
  function Normalise(ratings: PerPillar<nat>): (w: PerPillar<real>)
    requires 0 < Total(ratings)
    ensures forall p :: w.Get(p) * Total(ratings) as real == ratings.Get(p) as real
  {
    var t := Total(ratings) as real;
    ratings.Map(x => Ratio(x as real, t))
  }

  /** Normalised ratings are non-negative and sum to exactly 1. */
  lemma NormaliseIsWeightVector(ratings: PerPillar<nat>)
    requires 0 < Total(ratings)
    ensures IsWeightVector(Normalise(ratings))
  {
    var w, t := Normalise(ratings), Total(ratings) as real;
    WeightsSumToOne(ratings, w);
    WeightsNonNegative(ratings, w, t);
  }

  lemma WeightsSumToOne(ratings: PerPillar<nat>, w: PerPillar<real>)
    requires 0 < Total(ratings)
    requires forall p :: w.Get(p) * Total(ratings) as real == ratings.Get(p) as real
    ensures Sum(w) == 1.0
  {
    var t := Total(ratings) as real;
    SumOfQuotients(w.Get(Governance), w.Get(Quality), w.Get(Metadata),
                   w.Get(Integration), w.Get(Analytics), w.Get(Security),
                   ratings.governance as real, ratings.quality as real, ratings.metadata as real,
                   ratings.integration as real, ratings.analytics as real, ratings.security as real, t);
  }

  /** Quotients of non-negative ratings by a positive total are non-negative. */
  lemma WeightsNonNegative(ratings: PerPillar<nat>, w: PerPillar<real>, t: real)
    requires 0.0 < t
    requires forall p :: w.Get(p) * t == ratings.Get(p) as real
    ensures forall p :: 0.0 <= w.Get(p)
  {
    forall p ensures 0.0 <= w.Get(p) {
      NonNegativeQuotient(w.Get(p), ratings.Get(p) as real, t);
    }
  }

  lemma NonNegativeQuotient(x: real, a: real, t: real)
    requires 0.0 <= a && 0.0 < t && x * t == a
    ensures 0.0 <= x
  {
    if x < 0.0 {
      PositiveProduct(-x, t);
    }
  }

  /** Six quotients by a common total that is their numerators' sum add up to 1. */
  lemma SumOfQuotients(x1: real, x2: real, x3: real, x4: real, x5: real, x6: real,
                       a1: real, a2: real, a3: real, a4: real, a5: real, a6: real, t: real)
    requires 0.0 < t && t == a1 + a2 + a3 + a4 + a5 + a6
    requires x1 * t == a1 && x2 * t == a2 && x3 * t == a3
    requires x4 * t == a4 && x5 * t == a5 && x6 * t == a6
    ensures x1 + x2 + x3 + x4 + x5 + x6 == 1.0
  {
    var s := x1 + x2 + x3 + x4 + x5 + x6;
    assert s * t == x1 * t + x2 * t + x3 * t + x4 * t + x5 * t + x6 * t;
    CancelFactor(s, 1.0, 1.0, t);
  }

  lemma CancelFactor(x: real, y: real, k: real, t: real)
    requires 0.0 < k && 0.0 < t
    requires x * (k * t) == k * (y * t)
    ensures x == y
  {
    assert (x - y) * (k * t) == 0.0;
  }

  /**
   With every importance rating between 1 and 5, every weight lies between
   1/26 (a 1 among five 5s) and 1/2 (a 5 among five 1s); in particular it is
   positive and at most 5/6.
   */
  lemma WeightBounds(ratings: PerPillar<nat>)
    requires forall p :: InRatingRange(ratings.Get(p))
    ensures ComputeWeights(ratings).Success?
    ensures forall p :: 1.0 <= 26.0 * ComputeWeights(ratings).value.Get(p)
    ensures forall p :: 2.0 * ComputeWeights(ratings).value.Get(p) <= 1.0
  {
    TotalAroundOne(ratings, Governance);
    QuotientBounds(ratings, ComputeWeights(ratings).value);
  }

  lemma QuotientBounds(ratings: PerPillar<nat>, w: PerPillar<real>)
    requires forall p :: InRatingRange(ratings.Get(p))
    requires forall p :: w.Get(p) * Total(ratings) as real == ratings.Get(p) as real
    ensures forall p :: 1.0 <= 26.0 * w.Get(p) && 2.0 * w.Get(p) <= 1.0
  {
    forall p ensures 1.0 <= 26.0 * w.Get(p) && 2.0 * w.Get(p) <= 1.0 {
      QuotientBoundsAt(ratings, w, p);
    }
  }

  lemma QuotientBoundsAt(ratings: PerPillar<nat>, w: PerPillar<real>, p: Pillar)
    requires forall p :: InRatingRange(ratings.Get(p))
    requires forall p :: w.Get(p) * Total(ratings) as real == ratings.Get(p) as real
    ensures 1.0 <= 26.0 * w.Get(p) && 2.0 * w.Get(p) <= 1.0
  {
    TotalAroundOne(ratings, p);
    FractionBounds(w.Get(p), ratings.Get(p) as real, Total(ratings) as real);
  }

  /** The five other ratings contribute between 5 and 25 to the total. */
  lemma TotalAroundOne(ratings: PerPillar<nat>, p: Pillar)
    requires forall p :: InRatingRange(ratings.Get(p))
    ensures ratings.Get(p) + 5 <= Total(ratings) <= ratings.Get(p) + 25
  {
    assert InRatingRange(ratings.Get(Governance)) && InRatingRange(ratings.Get(Quality))
      && InRatingRange(ratings.Get(Metadata)) && InRatingRange(ratings.Get(Integration))
      && InRatingRange(ratings.Get(Analytics)) && InRatingRange(ratings.Get(Security));
  }

  lemma FractionBounds(x: real, a: real, t: real)
    requires 1.0 <= a <= 5.0 && a + 5.0 <= t <= a + 25.0
    requires x * t == a
    ensures 1.0 <= 26.0 * x && 2.0 * x <= 1.0
  {
    CompareQuotient(x, a, t, 1.0, 2.0);
    CompareQuotient(-x, -a, t, -1.0, 26.0);
  }

  /** When x * t == a and t > 0, d * x compares with c exactly as d * a with c * t. */
  lemma CompareQuotient(x: real, a: real, t: real, c: real, d: real)
    requires 0.0 < t && 0.0 < d
    requires x * t == a
    ensures d * x <= c <==> d * a <= c * t
  {
    if d * x > c {
      PositiveProduct(d * x - c, t);
      assert (d * x - c) * t == d * (x * t) - c * t;
    } else {
      NonNegativeProduct(c - d * x, t);
      assert (c - d * x) * t == c * t - d * (x * t);
    }
  }

  lemma PositiveProduct(u: real, v: real)
    requires 0.0 < u && 0.0 < v
    ensures 0.0 < u * v
  {
  }

  lemma NonNegativeProduct(u: real, v: real)
    requires 0.0 <= u && 0.0 <= v
    ensures 0.0 <= u * v
  {
  }

  /** Importance ratings 1, 2, 3, 4, 5, 5 (total 20) give the weights 1/20, 2/20, 3/20, 4/20, 5/20, 5/20. */
  lemma ImportanceExample()
    ensures ComputeWeights(PerPillar(1, 2, 3, 4, 5, 5)) == Success(PerPillar(0.05, 0.10, 0.15, 0.20, 0.25, 0.25))
  {
    var r := PerPillar(1, 2, 3, 4, 5, 5);
    var w := ComputeWeights(r).value;
    assert w.Get(Governance) * 20.0 == 1.0 && w.Get(Quality) * 20.0 == 2.0;
    assert w.Get(Metadata) * 20.0 == 3.0 && w.Get(Integration) * 20.0 == 4.0;
    assert w.Get(Analytics) * 20.0 == 5.0 && w.Get(Security) * 20.0 == 5.0;
    Extensionality(w, PerPillar(0.05, 0.10, 0.15, 0.20, 0.25, 0.25));
  }

  /** The weights in force before the weighting stage completes. */
  function DefaultWeights(): (w: PerPillar<real>)
    ensures IsWeightVector(w)
    ensures w.Get(Governance) == w.Get(Quality) == 0.20
    ensures forall p :: p != Governance && p != Quality ==> w.Get(p) == 0.15
  {
    PerPillar(0.20, 0.20, 0.15, 0.15, 0.15, 0.15)
  }
}
