/**
 The maturity scorer: each pillar's weighted score is its rating times its
 weight, and the aggregate maturity score is the sum of the weighted scores.
 */
module Scoring {

  import opened Pillars
  import opened Weights

  /** Per-pillar weighted scores (the breakdown shown by category). */
  function WeightedScores(ratings: PerPillar<nat>, w: PerPillar<real>): (ws: PerPillar<real>)
    ensures forall p :: ws.Get(p) == ratings.Get(p) as real * w.Get(p)
  {
    PerPillar(ratings.governance as real * w.governance, ratings.quality as real * w.quality,
              ratings.metadata as real * w.metadata, ratings.integration as real * w.integration,
              ratings.analytics as real * w.analytics, ratings.security as real * w.security)
  }

  /** The weighted average maturity score. */
  function Aggregate(ratings: PerPillar<nat>, w: PerPillar<real>): real
  {
    Sum(WeightedScores(ratings, w))
  }

  /**
   With a weight vector (non-negative, summing to 1) and every rating in
   [lo, hi], the aggregate lies in [lo, hi]; for ratings 1..5 it lies in [1, 5].
   */
  lemma AggregateWithinRatingRange(ratings: PerPillar<nat>, w: PerPillar<real>, lo: real, hi: real)
    requires IsWeightVector(w)
    requires forall p :: lo <= ratings.Get(p) as real <= hi
    ensures lo <= Aggregate(ratings, w) <= hi
  {
    var ws := WeightedScores(ratings, w);
    forall p ensures lo * w.Get(p) <= ws.Get(p) <= hi * w.Get(p) {
      BetweenTimesWeight(ratings.Get(p) as real, lo, hi, w.Get(p));
    }
    ConvexCombination(ws, w, lo, hi);
  }

  lemma BetweenTimesWeight(x: real, lo: real, hi: real, c: real)
    requires lo <= x <= hi && 0.0 <= c
    ensures lo * c <= x * c <= hi * c
  {
    NonNegativeProduct(x - lo, c);
    NonNegativeProduct(hi - x, c);
    assert (x - lo) * c == x * c - lo * c;
    assert (hi - x) * c == hi * c - x * c;
  }

  /** A sum of six terms each bounded by lo and hi times its weight, for weights summing to 1. */
  lemma ConvexCombination(ws: PerPillar<real>, w: PerPillar<real>, lo: real, hi: real)
    requires Sum(w) == 1.0
    requires forall p :: lo * w.Get(p) <= ws.Get(p) <= hi * w.Get(p)
    ensures lo <= Sum(ws) <= hi
  {
    ConvexLower(ws, w, lo);
    ConvexUpper(ws, w, hi);
  }

  lemma ConvexLower(ws: PerPillar<real>, w: PerPillar<real>, lo: real)
    requires Sum(w) == 1.0
    requires forall p :: lo * w.Get(p) <= ws.Get(p)
    ensures lo <= Sum(ws)
  {
    assert lo * w.Get(Governance) <= ws.Get(Governance);
    assert lo * w.Get(Quality) <= ws.Get(Quality);
    assert lo * w.Get(Metadata) <= ws.Get(Metadata);
    assert lo * w.Get(Integration) <= ws.Get(Integration);
    assert lo * w.Get(Analytics) <= ws.Get(Analytics);
    assert lo * w.Get(Security) <= ws.Get(Security);
    Distribute(lo, w);
  }

  lemma ConvexUpper(ws: PerPillar<real>, w: PerPillar<real>, hi: real)
    requires Sum(w) == 1.0
    requires forall p :: ws.Get(p) <= hi * w.Get(p)
    ensures Sum(ws) <= hi
  {
    assert ws.Get(Governance) <= hi * w.Get(Governance);
    assert ws.Get(Quality) <= hi * w.Get(Quality);
    assert ws.Get(Metadata) <= hi * w.Get(Metadata);
    assert ws.Get(Integration) <= hi * w.Get(Integration);
    assert ws.Get(Analytics) <= hi * w.Get(Analytics);
    assert ws.Get(Security) <= hi * w.Get(Security);
    Distribute(hi, w);
  }

  /** c times the sum of the entries is the sum of c times each entry. */
  lemma Distribute(c: real, w: PerPillar<real>)
    ensures c * Sum(w) == c * w.governance + c * w.quality + c * w.metadata
                          + c * w.integration + c * w.analytics + c * w.security
  {
  }

  /** When all six ratings equal r, the aggregate is r, for any weights summing to 1. */
  lemma UniformRatingsAggregate(r: nat, w: PerPillar<real>)
    requires Sum(w) == 1.0
    ensures Aggregate(Uniform(r), w) == r as real
  {
    Distribute(r as real, w);
  }

  /** Raising any rating never lowers the aggregate, for non-negative weights. */
  lemma AggregateMonotone(lower: PerPillar<nat>, upper: PerPillar<nat>, w: PerPillar<real>)
    requires forall p :: 0.0 <= w.Get(p)
    requires forall p :: lower.Get(p) <= upper.Get(p)
    ensures Aggregate(lower, w) <= Aggregate(upper, w)
  {
    var a, b := WeightedScores(lower, w), WeightedScores(upper, w);
    forall p ensures a.Get(p) <= b.Get(p) {
      ScaleMonotone(lower.Get(p) as real, upper.Get(p) as real, w.Get(p));
    }
    SumMonotone(a, b);
  }

  lemma ScaleMonotone(x: real, y: real, c: real)
    requires x <= y && 0.0 <= c
    ensures x * c <= y * c
  {
    NonNegativeProduct(y - x, c);
    assert (y - x) * c == y * c - x * c;
  }

  /** Sum is monotone entrywise. */
  lemma SumMonotone(a: PerPillar<real>, b: PerPillar<real>)
    requires forall p :: a.Get(p) <= b.Get(p)
    ensures Sum(a) <= Sum(b)
  {
    assert a.Get(Governance) <= b.Get(Governance) && a.Get(Quality) <= b.Get(Quality);
    assert a.Get(Metadata) <= b.Get(Metadata) && a.Get(Integration) <= b.Get(Integration);
    assert a.Get(Analytics) <= b.Get(Analytics) && a.Get(Security) <= b.Get(Security);
  }

  /** A weighted score never exceeds its weight times the top rating 5. */
  lemma WeightedScoreBound(ratings: PerPillar<nat>, w: PerPillar<real>, p: Pillar)
    requires 0.0 <= w.Get(p) && ratings.Get(p) <= 5
    ensures 0.0 <= WeightedScores(ratings, w).Get(p) <= 5.0 * w.Get(p)
  {
    var x, c := ratings.Get(p) as real, w.Get(p);
    var ws := WeightedScores(ratings, w).Get(p);
    assert ws == x * c;
    NonNegativeProduct(x, c);
    ScaleMonotone(x, 5.0, c);
    assert 0.0 <= x * c <= 5.0 * c;
  }
}
