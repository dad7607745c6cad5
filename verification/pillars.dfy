/**
 The six assessment pillars and per-pillar vectors. The source keys every
 per-pillar dictionary by the pillar's display name and always builds those
 dictionaries in the same order; here that order is `AllPillars`.
 */
module Pillars {

  import opened Wrappers

  datatype Pillar = Governance | Quality | Metadata | Integration | Analytics | Security

  /** Declaration (and dictionary insertion) order of the pillars. */
  const AllPillars: seq<Pillar> := [Governance, Quality, Metadata, Integration, Analytics, Security]

  /** Position of a pillar in `AllPillars`. */
  function Index(p: Pillar): (i: nat)
    ensures i < |AllPillars| && AllPillars[i] == p
  {
    match p
    case Governance => 0
    case Quality => 1
    case Metadata => 2
    case Integration => 3
    case Analytics => 4
    case Security => 5
  }

  /** The dictionary key the source uses for a pillar. */
  function Name(p: Pillar): string
  {
    match p
    case Governance => "Data Governance"
    case Quality => "Data Quality"
    case Metadata => "Metadata Management"
    case Integration => "Data Integration"
    case Analytics => "Data Analytics & AI"
    case Security => "Data Security & Privacy"
  }

  /** The pillar answered just before `p` in the questionnaire, if any. */
  function Previous(p: Pillar): (q: Option<Pillar>)
    ensures q.None? <==> p == Governance
    ensures q.Some? ==> Index(q.value) + 1 == Index(p)
  {
    match p
    case Governance => None
    case Quality => Some(Governance)
    case Metadata => Some(Quality)
    case Integration => Some(Metadata)
    case Analytics => Some(Integration)
    case Security => Some(Analytics)
  }

  /** One value per pillar: a total map from `Pillar` to `T`. */
  datatype PerPillar<T> = PerPillar(governance: T, quality: T, metadata: T,
                                    integration: T, analytics: T, security: T)
  {
    function Get(p: Pillar): T
    {
      match p
      case Governance => governance
      case Quality => quality
      case Metadata => metadata
      case Integration => integration
      case Analytics => analytics
      case Security => security
    }

    /** Applies f to every entry. */
    function Map<U>(f: T -> U): (r: PerPillar<U>)
      ensures forall p :: r.Get(p) == f(Get(p))
    {
      PerPillar(f(governance), f(quality), f(metadata), f(integration), f(analytics), f(security))
    }

    /** The vector with the entry of `p` replaced by `x` (a dictionary item assignment). */
    function With(p: Pillar, x: T): (r: PerPillar<T>)
      ensures r.Get(p) == x
      ensures forall q :: q != p ==> r.Get(q) == Get(q)
    {
      match p
      case Governance => this.(governance := x)
      case Quality => this.(quality := x)
      case Metadata => this.(metadata := x)
      case Integration => this.(integration := x)
      case Analytics => this.(analytics := x)
      case Security => this.(security := x)
    }
  }

  /** Two vectors with the same entries are equal. */
  lemma Extensionality<T>(a: PerPillar<T>, b: PerPillar<T>)
    requires forall p :: a.Get(p) == b.Get(p)
    ensures a == b
  {
    assert a.Get(Governance) == b.Get(Governance) && a.Get(Quality) == b.Get(Quality);
    assert a.Get(Metadata) == b.Get(Metadata) && a.Get(Integration) == b.Get(Integration);
    assert a.Get(Analytics) == b.Get(Analytics) && a.Get(Security) == b.Get(Security);
  }

  /** The vector whose every entry is `x`. */
  function Uniform<T>(x: T): (v: PerPillar<T>)
    ensures forall p :: v.Get(p) == x
  {
    PerPillar(x, x, x, x, x, x)
  }

  /** Sum of the six entries, in pillar order (Python's `sum(d.values())`). */
  function Sum(v: PerPillar<real>): real
  {
    v.governance + v.quality + v.metadata + v.integration + v.analytics + v.security
  }

  /** All six entries are true. */
  predicate AllOf(v: PerPillar<bool>)
  {
    v.Get(Governance) && v.Get(Quality) && v.Get(Metadata)
    && v.Get(Integration) && v.Get(Analytics) && v.Get(Security)
  }

  /** Some entry is true. */
  predicate AnyOf(v: PerPillar<bool>)
  {
    v.Get(Governance) || v.Get(Quality) || v.Get(Metadata)
    || v.Get(Integration) || v.Get(Analytics) || v.Get(Security)
  }

  /** Number of true entries (Python's `sum` over a list of booleans). */
  function Count(v: PerPillar<bool>): (n: nat)
    ensures n <= |AllPillars|
    ensures n == |AllPillars| <==> forall p :: v.Get(p)
    ensures n == 0 <==> forall p :: !v.Get(p)
  {
    assert (forall p :: v.Get(p)) <==> AllOf(v);
    assert (forall p :: !v.Get(p)) <==> !AnyOf(v);
    (if v.governance then 1 else 0) + (if v.quality then 1 else 0)
    + (if v.metadata then 1 else 0) + (if v.integration then 1 else 0)
    + (if v.analytics then 1 else 0) + (if v.security then 1 else 0)
  }
}
