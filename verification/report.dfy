/**
 The results page: once every section is complete, the first answer of each
 pillar is scored, weighted and summed; the sum picks the level and its
 recommendation; the raw first-answer ratings pick the insights; the level's
 name picks the catalog entries, and the roadmap lists the other levels.
 */
module Report {

  import opened Wrappers
  import opened Pillars
  import opened ScoreExtractor
  import opened Weights
  import opened Scoring
  import opened Tiers
  import opened Insights
  import opened Catalog

  /** The three stored answers of one pillar's section. */
  datatype PillarAnswers = PillarAnswers(q1: string, q2: string, q3: string)

  /** The answer every question holds before it is answered. */
  const DefaultAnswer: string := " (1)"

  function DefaultAnswers(): PerPillar<PillarAnswers>
  {
    Uniform(PillarAnswers(DefaultAnswer, DefaultAnswer, DefaultAnswer))
  }

  function FirstRating(a: PillarAnswers): nat
  {
    ExtractScore(a.q1)
  }

  /** The rating of each pillar: the score of its first answer only. */
  function Ratings(answers: PerPillar<PillarAnswers>): (r: PerPillar<nat>)
    ensures forall p :: r.Get(p) == ExtractScore(answers.Get(p).q1)
  {
    answers.Map(FirstRating)
  }

  /** A report section: the catalog entry, or the message shown when the lookup fails. */
  datatype Section<V> = Found(entry: V) | NotFound(message: string)

  function SectionOf<V>(o: Option<V>, message: string): (s: Section<V>)
    ensures s.Found? <==> o.Some?
    ensures s.Found? ==> s.entry == o.value
    ensures s.NotFound? ==> s.message == message
  {
    match o
    case Some(v) => Found(v)
    case None => NotFound(message)
  }

  const NoCapabilitiesMessage: string := "No analytics capabilities found for this maturity level."
  const NoRecommendationsMessage: string := "No recommendations found for this maturity level."

  datatype Report = Report(
    level: string,                  // e.g. "🟡 Defined"
    score: real,                    // weighted average maturity score
    recommendation: string,
    weightedScores: PerPillar<real>,
    insights: seq<string>,
    capabilities: Section<CapabilityProfile>,
    recommendations: Section<RecommendationProfile>,
    roadmap: Dict<CapabilityProfile>,
    pdfLevel: string)               // the level line of the PDF, as written: the name twice

  /** The results page for the stored answers under the weights in force. */
  function AssembleReport(answers: PerPillar<PillarAnswers>, w: PerPillar<real>): (r: Report)
    ensures r.capabilities.Found? && r.recommendations.Found?
    ensures |r.insights| == |AllPillars| && |r.roadmap| == |AllTiers| - 1
  {
    var ratings := Ratings(answers);
    var score := Aggregate(ratings, w);
    var tier := Classify(score);
    var level := Label(tier);
    var key := LevelKey(level);
    LookupByLabel(tier);
    RoadmapIsOtherTiers(tier);
    Report(level, score, Recommendation(tier), WeightedScores(ratings, w), GenerateInsights(ratings),
           SectionOf(Lookup(AnalyticsCapabilities(), key), NoCapabilitiesMessage),
           SectionOf(Lookup(DynamicRecommendations(), key), NoRecommendationsMessage),
           Without(AnalyticsCapabilities(), key),
           PdfLevelAsWritten(level))
  }

  /** The tier a report is about. */
  function ReportTier(answers: PerPillar<PillarAnswers>, w: PerPillar<real>): Tier
  {
    Classify(Aggregate(Ratings(answers), w))
  }

  /**
   Everything on the page agrees with one tier: the score is the weighted
   sum of the first-answer ratings and lies in the tier's band, and the
   label, the recommendation, both catalog entries and the roadmap without
   it all belong to that tier. The PDF's level line prints the tier's name
   twice; the corrected rendering of the same label prints it once.
   */
  lemma ReportConsistent(answers: PerPillar<PillarAnswers>, w: PerPillar<real>)
    ensures var r, t := AssembleReport(answers, w), ReportTier(answers, w);
            && r.score == Aggregate(Ratings(answers), w)
            && r.weightedScores == WeightedScores(Ratings(answers), w)
            && InBand(t, r.score)
            && r.level == Label(t)
            && r.recommendation == Recommendation(t)
            && r.capabilities == Found(Capabilities(t))
            && r.recommendations == Found(Recommendations(t))
            && r.roadmap == Roadmap(t)
            && r.pdfLevel == Tiers.Name(t) + " " + Tiers.Name(t)
            && PdfLevel(r.level) == Tiers.Name(t)
  {
    var t := ReportTier(answers, w);
    LookupByLabel(t);
    PdfLevelRepeatsName(t);
    PdfLevelNamesTierOnce(t);
  }

  /** The second and third answers of every section never affect the report. */
  lemma FollowUpAnswersIgnored(a: PerPillar<PillarAnswers>, b: PerPillar<PillarAnswers>, w: PerPillar<real>)
    requires forall p :: a.Get(p).q1 == b.Get(p).q1
    ensures AssembleReport(a, w) == AssembleReport(b, w)
  {
    Extensionality(Ratings(a), Ratings(b));
  }

  /**
   With a weight vector and every first answer scoring between 1 and 5, the
   score lies in [1, 5], and each weighted score between 0 and 5 times its weight.
   */
  lemma ReportScoreInRange(answers: PerPillar<PillarAnswers>, w: PerPillar<real>)
    requires IsWeightVector(w)
    requires forall p :: InRatingRange(ExtractScore(answers.Get(p).q1))
    ensures 1.0 <= AssembleReport(answers, w).score <= 5.0
    ensures forall p :: 0.0 <= AssembleReport(answers, w).weightedScores.Get(p) <= 5.0 * w.Get(p)
  {
    var ratings := Ratings(answers);
    AggregateWithinRatingRange(ratings, w, 1.0, 5.0);
    forall p ensures 0.0 <= WeightedScores(ratings, w).Get(p) <= 5.0 * w.Get(p) {
      WeightedScoreBound(ratings, w, p);
    }
  }

  /** The i-th insight reads back as the i-th pillar, banded by its first answer's rating. */
  lemma ReportInsightsInPillarOrder(answers: PerPillar<PillarAnswers>, w: PerPillar<real>, i: nat)
    requires i < |AllPillars|
    ensures ParseInsight(AssembleReport(answers, w).insights[i])
            == Some((AllPillars[i], BandOf(ExtractScore(answers.Get(AllPillars[i]).q1))))
  {
    InsightsDecode(Ratings(answers), i);
  }

  /** Untouched answers (" (1)" everywhere) score exactly 1, the lowest level, for any weights summing to 1. */
  lemma DefaultAnswersReport(w: PerPillar<real>)
    requires Sum(w) == 1.0
    ensures AssembleReport(DefaultAnswers(), w).score == 1.0
    ensures ReportTier(DefaultAnswers(), w) == InitialAdHoc
  {
    DefaultAnswerScore();
    Extensionality(Ratings(DefaultAnswers()), Uniform(1));
    UniformRatingsAggregate(1, w);
  }

  /** The same answer level r on every pillar gives the score r and its tier, for any weights summing to 1. */
  lemma UniformAnswersReport(answers: PerPillar<PillarAnswers>, w: PerPillar<real>, r: nat)
    requires Sum(w) == 1.0
    requires forall p :: ExtractScore(answers.Get(p).q1) == r
    ensures AssembleReport(answers, w).score == r as real
    ensures ReportTier(answers, w) == Classify(r as real)
  {
    Extensionality(Ratings(answers), Uniform(r));
    UniformRatingsAggregate(r, w);
  }
}
