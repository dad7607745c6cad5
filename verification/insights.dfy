/**
 The insight generator: one sentence per pillar, chosen by that pillar's raw
 first-question rating (not its weighted score) falling in one of three
 bands, and written as a coloured circle, the bold pillar name and advice.
 */
module Insights {

  import opened Wrappers
  import opened Pillars
  import Tiers

  datatype Band = Low | Medium | High

  /** `if score <= 2 … elif score <= 3.5 … else`, on an integer rating. */
  function BandOf(rating: nat): (b: Band)
    ensures b == Low <==> rating <= 2
    ensures b == Medium <==> rating == 3
    ensures b == High <==> 4 <= rating
  {
    if rating <= 2 then Low
    else if rating as real <= 3.5 then Medium
    else High
  }

  /** Raising a rating never lowers its band. */
  lemma BandOfMonotone(a: nat, b: nat)
    requires a <= b
    ensures BandRank(BandOf(a)) <= BandRank(BandOf(b))
  {
  }

  function BandRank(b: Band): nat
  {
    match b
    case Low => 0
    case Medium => 1
    case High => 2
  }

  /** The circle an insight starts with: red, yellow or green. */
  function BandGlyph(b: Band): char
  {
    match b
    case Low => Tiers.RedCircle
    case Medium => Tiers.YellowCircle
    case High => Tiers.GreenCircle
  }

  /** Reads a band back from an insight's first code point. */
  function BandOfGlyph(c: char): (r: Option<Band>)
    ensures forall b :: r == Some(b) <==> BandGlyph(b) == c
  {
    if c == Tiers.RedCircle then Some(Low)
    else if c == Tiers.YellowCircle then Some(Medium)
    else if c == Tiers.GreenCircle then Some(High)
    else None
  }

  /** The advice sentence for a pillar in a band. */
  function Advice(p: Pillar, b: Band): string
  {
    match (p, b)
    case (Governance, Low) => "Your organization lacks formal governance policies. Consider establishing a data governance framework with clear roles and responsibilities."
    case (Governance, Medium) => "Your governance policies are in place but need better enforcement. Focus on consistent monitoring and accountability."
    case (Governance, High) => "Your governance policies are well-established. Continue optimizing with automation and AI-driven insights."
    case (Quality, Low) => "Data accuracy and completeness are major concerns. Implement automated validation and monitoring processes."
    case (Quality, Medium) => "Your data quality processes are improving but need more automation. Consider AI-powered real-time monitoring."
    case (Quality, High) => "Your data quality is excellent. Focus on maintaining consistency and exploring advanced analytics."
    case (Metadata, Low) => "Metadata is poorly managed. Establish a centralized metadata repository and enforce standardized definitions."
    case (Metadata, Medium) => "Metadata management is improving but lacks automation. Consider AI-driven lineage tracking."
    case (Metadata, High) => "Metadata is well-managed. Continue leveraging AI for real-time anomaly detection."
    case (Integration, Low) => "Data integration is manual and inconsistent. Invest in automated API-based data flows."
    case (Integration, Medium) => "Integration processes are improving but need more automation. Consider real-time synchronization."
    case (Integration, High) => "Data integration is seamless. Explore AI-driven multi-cloud integration."
    case (Analytics, Low) => "Analytics adoption is low. Start with basic reporting and explore predictive analytics."
    case (Analytics, Medium) => "Analytics adoption is growing. Focus on embedding machine learning models into core processes."
    case (Analytics, High) => "Analytics adoption is excellent. Continue leveraging AI for decision intelligence."
    case (Security, Low) => "Security measures are weak. Implement role-based access control and encryption."
    case (Security, Medium) => "Security measures are improving but need better enforcement. Consider continuous compliance monitoring."
    case (Security, High) => "Security measures are robust. Focus on AI-driven anomaly detection and zero-trust models."
  }

  /** The bold pillar name between the circle and the advice: ` **Data Quality**: `. */
  function Header(p: Pillar): string
  {
    " **" + Name(p) + "**: "
  }

  /** One insight sentence. */
  function InsightText(p: Pillar, b: Band): string
  {
    [BandGlyph(b)] + Header(p) + Advice(p, b)
  }

  /** `generate_ai_insights`: six sentences, in pillar order, each from its own pillar's rating. */
  function GenerateInsights(scores: PerPillar<nat>): (r: seq<string>)
    ensures |r| == |AllPillars|
    ensures forall i :: 0 <= i < |r| ==> r[i] == InsightText(AllPillars[i], BandOf(scores.Get(AllPillars[i])))
  {
    seq(|AllPillars|, i requires 0 <= i < |AllPillars| => InsightText(AllPillars[i], BandOf(scores.Get(AllPillars[i]))))
  }

  /** A pillar's insight depends on that pillar's rating alone. */
  lemma InsightLocality(a: PerPillar<nat>, b: PerPillar<nat>, p: Pillar)
    requires a.Get(p) == b.Get(p)
    ensures GenerateInsights(a)[Index(p)] == GenerateInsights(b)[Index(p)]
  {
  }

  /** The first pillar (in order) whose header opens the text. */
  function PillarOfHeader(s: string, candidates: seq<Pillar>): (r: Option<Pillar>)
    ensures r.Some? ==> r.value in candidates && Header(r.value) <= s
    ensures r.None? ==> forall q :: q in candidates ==> !(Header(q) <= s)
  {
    if |candidates| == 0 then None
    else if Header(candidates[0]) <= s then Some(candidates[0])
    else PillarOfHeader(s, candidates[1..])
  }

  /** Reads the pillar and band back out of an insight sentence. */
  function ParseInsight(s: string): Option<(Pillar, Band)>
  {
    if |s| == 0 then None
    else match (PillarOfHeader(s[1..], AllPillars), BandOfGlyph(s[0]))
      case (Some(p), Some(b)) => Some((p, b))
      case _ => None
  }

  /** An insight sentence names its pillar and band unambiguously. */
  lemma ParseInsightRoundTrip(p: Pillar, b: Band)
    ensures ParseInsight(InsightText(p, b)) == Some((p, b))
  {
    InsightOpening(p, b, Advice(p, b));
  }

  /** Whatever follows the header, the circle and the header alone decide the parse. */
  lemma InsightOpening(p: Pillar, b: Band, rest: string)
    ensures ParseInsight([BandGlyph(b)] + Header(p) + rest) == Some((p, b))
  {
    var s := [BandGlyph(b)] + Header(p) + rest;
    assert s[1..] == Header(p) + rest;
    HeaderFound(p, rest);
  }

  /** The pillar whose header opens a text is found, and no other. */
  lemma HeaderFound(p: Pillar, rest: string)
    ensures PillarOfHeader(Header(p) + rest, AllPillars) == Some(p)
  {
    var r := PillarOfHeader(Header(p) + rest, AllPillars);
    assert p in AllPillars by { assert AllPillars[Index(p)] == p; }
    NameHasNoStar(p);
    NameHasNoStar(r.value);
    BoldHeaderUnique(Name(p), Name(r.value), rest);
    PillarNameInjective(p, r.value);
  }

  /** Two bold headers where one opens the other plus some text: the names agree, when neither holds a '*'. */
  lemma BoldHeaderUnique(a: string, b: string, rest: string)
    requires '*' !in a && '*' !in b
    requires " **" + b + "**: " <= " **" + a + "**: " + rest
    ensures a == b
  {
    var s, h := " **" + a + "**: " + rest, " **" + b + "**: ";
    var n, m := |a|, |b|;
    assert forall i :: 0 <= i < n ==> s[3 + i] == a[i];
    assert forall i :: 0 <= i < m ==> h[3 + i] == b[i];
    assert h[3 + m] == '*' && s[3 + m] == h[3 + m];
    assert n <= m;
    assert s[3 + n] == '*' && h[3 + n] == s[3 + n];
    assert m == n;
    forall i | 0 <= i < n ensures a[i] == b[i] {
      assert h[3 + i] == s[3 + i];
    }
  }

  /** No pillar name contains the asterisk that closes the bold header. */
  lemma NameHasNoStar(p: Pillar)
    ensures '*' !in Name(p)
  {
    match p
    case Governance =>
    case Quality =>
    case Metadata =>
    case Integration =>
    case Analytics =>
    case Security =>
  }

  /** The six pillar names are pairwise different. */
  lemma PillarNameInjective(p: Pillar, q: Pillar)
    requires Name(p) == Name(q)
    ensures p == q
  {
    if p != q {
      PillarNamesDiffer(p, q);
    }
  }

  /** Names of equal length differ in their first letter, the others in their length. */
  lemma PillarNamesDiffer(p: Pillar, q: Pillar)
    requires p != q
    ensures |Name(p)| != |Name(q)| || Name(p)[0] != Name(q)[0]
  {
  }

  /** The i-th insight reads back as the i-th pillar with the band of that pillar's rating. */
  lemma InsightsDecode(scores: PerPillar<nat>, i: nat)
    requires i < |AllPillars|
    ensures ParseInsight(GenerateInsights(scores)[i]) == Some((AllPillars[i], BandOf(scores.Get(AllPillars[i]))))
  {
    ParseInsightRoundTrip(AllPillars[i], BandOf(scores.Get(AllPillars[i])));
  }
}
