/**
 The two static catalogs keyed by tier name — analytics capabilities with an
 example, and recommendations with next steps — the dictionary lookup the
 report does with the level's key, and the roadmap: the capabilities catalog
 with the current tier's entry left out.
 */
module Catalog {

  import opened Wrappers
  import opened Text
  import opened Tiers

  /** A capability line "Kind: description", kept as its two halves. */
  datatype Capability = Capability(kind: string, description: string)

  /** The catalog text of a capability. */
  function CapabilityText(c: Capability): string
  {
    c.kind + ": " + c.description
  }

  datatype CapabilityProfile = CapabilityProfile(capabilities: seq<Capability>, example: string)

  datatype RecommendationProfile = RecommendationProfile(recommendations: seq<string>, nextSteps: seq<string>)

  /** A dictionary as its items in insertion order. */
  type Dict<V> = seq<(string, V)>

  /** No key occurs twice (as in any Python dict). */
  predicate KeysDistinct<V>(d: Dict<V>)
  {
    forall i, j :: 0 <= i < j < |d| ==> d[i].0 != d[j].0
  }

  /** `d.get(key)`. */
  function Lookup<V(==)>(d: Dict<V>, key: string): (r: Option<V>)
    ensures r.None? <==> forall i :: 0 <= i < |d| ==> d[i].0 != key
    ensures r.Some? ==> exists i :: 0 <= i < |d| && d[i] == (key, r.value)
  {
    if |d| == 0 then None
    else if d[0].0 == key then Some(d[0].1)
    else match Lookup(d[1..], key)
      case None => None
      case Some(v) =>
        assert exists i :: 0 <= i < |d| - 1 && d[1..][i] == (key, v);
        var i :| 0 <= i < |d| - 1 && d[1..][i] == (key, v);
        assert d[i + 1] == (key, v);
        Some(v)
  }

  /** With distinct keys, looking up the i-th key gives the i-th value. */
  lemma LookupAt<V>(d: Dict<V>, i: nat)
    requires KeysDistinct(d) && i < |d|
    ensures Lookup(d, d[i].0) == Some(d[i].1)
  {
    var r := Lookup(d, d[i].0);
    var j :| 0 <= j < |d| && d[j] == (d[i].0, r.value);
    assert j == i;
  }

  /** `{k: v for k, v in d.items() if k != key}`, order kept. */
  function Without<V>(d: Dict<V>, key: string): (r: Dict<V>)
    ensures |r| <= |d|
    ensures forall i :: 0 <= i < |r| ==> r[i].0 != key && r[i] in d
  {
    if |d| == 0 then []
    else if d[0].0 == key then Without(d[1..], key)
    else [d[0]] + Without(d[1..], key)
  }

  /** With distinct keys, dropping the i-th key removes exactly the i-th entry. */
  lemma {:induction false} WithoutKeyAt<V>(d: Dict<V>, i: nat)
    requires KeysDistinct(d) && i < |d|
    ensures Without(d, d[i].0) == d[..i] + d[i + 1..]
    decreases |d|
  {
    if i == 0 {
      WithoutAbsent(d[1..], d[0].0);
    } else {
      assert KeysDistinct(d[1..]);
      WithoutKeyAt(d[1..], i - 1);
      assert d[1..][i - 1].0 == d[i].0;
      assert d[..i] + d[i + 1..] == [d[0]] + (d[1..][..i - 1] + d[1..][i..]);
    }
  }

  /** Dropping a key that does not occur changes nothing. */
  lemma {:induction false} WithoutAbsent<V>(d: Dict<V>, key: string)
    requires forall i :: 0 <= i < |d| ==> d[i].0 != key
    ensures Without(d, key) == d
    decreases |d|
  {
    if |d| > 0 {
      WithoutAbsent(d[1..], key);
    }
  }

  // ---------------------------------------------------------------------
  // The analytics capabilities catalog
  // ---------------------------------------------------------------------

  /** The text before the ':' of each capability line. */
  function Kinds(t: Tier): (ks: seq<string>)
    ensures |ks| == 3
  {
    match t
    case InitialAdHoc => ["Descriptive Analytics", "Manual Reporting", "Limited Automation"]
    case Developing => ["Basic Diagnostic Analytics", "Standardized Reports", "Some Automation"]
    case Defined => ["Predictive Analytics", "Automated Reporting", "Data-Driven Decision-Making"]
    case Managed => ["Prescriptive Analytics", "Advanced Reporting", "Integrated Analytics"]
    case Optimized => ["Cognitive/AI Analytics", "Real-Time Decision-Making", "Integrated AI"]
  }

  /** The text after the ": " of each capability line. */
  function Descriptions(t: Tier): (ds: seq<string>)
    ensures |ds| == 3
  {
    match t
    case InitialAdHoc => ["Reporting and summarizing past data.",
                          "Periodic reporting using basic tools like Excel.",
                          "Minimal automation in data collection and reporting."]
    case Developing => ["Understanding why certain outcomes occurred.",
                        "Some standardization in reporting.",
                        "Introduction of basic analytics tools and dashboards."]
    case Defined => ["Forecasting future outcomes using statistical techniques.",
                     "Self-service dashboards and automated insights.",
                     "Reports and analysis directly influence decisions."]
    case Managed => ["Recommending actions based on predictive models.",
                     "Real-time dashboards and actionable insights.",
                     "Analytics tools embedded in business processes."]
    case Optimized => ["AI-driven insights and self-learning systems.",
                       "Autonomous systems adjust to new data.",
                       "AI and machine learning integrated into core business functions."]
  }

  function Example(t: Tier): string
  {
    match t
    case InitialAdHoc => "Tracking monthly sales with basic Excel sheets."
    case Developing => "Dashboards showing sales performance against targets."
    case Defined => "Predicting customer churn using historical data."
    case Managed => "Dynamic product recommendations based on customer behavior."
    case Optimized => "Real-time pricing adjustments based on market conditions."
  }

  /** The `analytics_capabilities` entry of a tier: three "Kind: description" lines and an example. */
  function Capabilities(t: Tier): (p: CapabilityProfile)
    ensures |p.capabilities| == 3
    ensures forall j :: 0 <= j < 3 ==> p.capabilities[j] == Capability(Kinds(t)[j], Descriptions(t)[j])
  {
    CapabilityProfile(seq(3, j requires 0 <= j < 3 => Capability(Kinds(t)[j], Descriptions(t)[j])), Example(t))
  }

  /** A dictionary with one entry per tier, keyed by the tier's name, in ladder order. */
  function TierDict<V>(value: Tier -> V): (d: Dict<V>)
    ensures |d| == |AllTiers|
    ensures forall i :: 0 <= i < |d| ==> d[i] == (Name(AllTiers[i]), value(AllTiers[i]))
  {
    seq(|AllTiers|, i requires 0 <= i < |AllTiers| => (Name(AllTiers[i]), value(AllTiers[i])))
  }

  /** `analytics_capabilities`, in insertion order. */
  function AnalyticsCapabilities(): Dict<CapabilityProfile>
  {
    TierDict(Capabilities)
  }

  // ---------------------------------------------------------------------
  // The dynamic recommendations catalog
  // ---------------------------------------------------------------------

  function Recommendations(t: Tier): RecommendationProfile
  {
    match t
    case InitialAdHoc => RecommendationProfile(
      ["Establish a formal data governance framework to define roles and responsibilities.",
       "Implement basic data quality checks to ensure accuracy and completeness.",
       "Start using simple reporting tools (e.g., Excel, Google Sheets) to track key metrics."],
      ["Move towards basic diagnostic analytics by introducing business intelligence tools (e.g., Tableau, Power BI).",
       "Standardize reporting processes to reduce manual effort."])
    case Developing => RecommendationProfile(
      ["Standardize data definitions and metadata management to improve consistency.",
       "Automate data collection and reporting processes to reduce manual effort.",
       "Introduce basic diagnostic analytics to understand trends and patterns."],
      ["Adopt predictive analytics to forecast future outcomes.",
       "Invest in self-service dashboards to empower business users."])
    case Defined => RecommendationProfile(
      ["Expand predictive analytics capabilities to forecast key business outcomes.",
       "Integrate analytics tools into business processes for real-time decision-making.",
       "Train staff on data-driven decision-making to maximize the value of analytics."],
      ["Explore prescriptive analytics to recommend actionable insights.",
       "Integrate real-time data streams for continuous monitoring."])
    case Managed => RecommendationProfile(
      ["Leverage prescriptive analytics to recommend optimal actions.",
       "Integrate advanced analytics tools into core business functions.",
       "Focus on real-time data processing and decision-making."],
      ["Adopt AI-driven analytics for cognitive insights and self-learning systems.",
       "Explore autonomous decision-making capabilities."])
    case Optimized => RecommendationProfile(
      ["Continuously refine AI and machine learning models for better accuracy.",
       "Expand autonomous decision-making capabilities across the organization.",
       "Foster a culture of innovation to explore new analytics use cases."],
      ["Stay ahead of industry trends by adopting emerging technologies.",
       "Focus on scaling AI-driven insights across all business units."])
  }

  /** `dynamic_recommendations`, in insertion order. */
  function DynamicRecommendations(): Dict<RecommendationProfile>
  {
    TierDict(Recommendations)
  }

  // ---------------------------------------------------------------------
  // Properties of the catalogs
  // ---------------------------------------------------------------------

  /** A tier dictionary's keys are distinct, because tier names are. */
  lemma TierDictKeysDistinct<V>(value: Tier -> V)
    ensures KeysDistinct(TierDict(value))
  {
    var d := TierDict(value);
    forall i, j | 0 <= i < j < |d| ensures d[i].0 != d[j].0 {
      if d[i].0 == d[j].0 {
        NameInjective(AllTiers[i], AllTiers[j]);
      }
    }
  }

  /** Looking up a tier's label (emoji removed, stripped) finds that tier's value. */
  lemma TierDictLookupByLabel<V>(value: Tier -> V, t: Tier)
    ensures Lookup(TierDict(value), LevelKey(Label(t))) == Some(value(t))
  {
    LevelKeyOfLabel(t);
    TierDictKeysDistinct(value);
    LookupAt(TierDict(value), Rank(t));
  }

  /** Every tier's label leads to its entries in both catalogs: the "not found" branches are dead. */
  lemma LookupByLabel(t: Tier)
    ensures Lookup(AnalyticsCapabilities(), LevelKey(Label(t))) == Some(Capabilities(t))
    ensures Lookup(DynamicRecommendations(), LevelKey(Label(t))) == Some(Recommendations(t))
  {
    TierDictLookupByLabel(Capabilities, t);
    TierDictLookupByLabel(Recommendations, t);
  }

  /** The roadmap for tier t: the capabilities catalog without t's entry. */
  function Roadmap(t: Tier): Dict<CapabilityProfile>
  {
    Without(AnalyticsCapabilities(), LevelKey(Label(t)))
  }

  /** The roadmap is exactly the capabilities catalog with the t-th entry cut out, order kept. */
  lemma RoadmapIsOtherTiers(t: Tier)
    ensures Roadmap(t) == AnalyticsCapabilities()[..Rank(t)] + AnalyticsCapabilities()[Rank(t) + 1..]
    ensures |Roadmap(t)| == |AllTiers| - 1
  {
    LevelKeyOfLabel(t);
    TierDictKeysDistinct(Capabilities);
    WithoutKeyAt(AnalyticsCapabilities(), Rank(t));
  }

  /** A tier's entry is on the roadmap exactly when it is not the current tier: lower tiers included. */
  lemma RoadmapMembers(t: Tier, u: Tier)
    ensures (Name(u), Capabilities(u)) in Roadmap(t) <==> u != t
  {
    var d := AnalyticsCapabilities();
    LevelKeyOfLabel(t);
    TierDictKeysDistinct(Capabilities);
    WithoutMembers(d, Rank(t), Rank(u));
    assert d[Rank(u)] == (Name(u), Capabilities(u));
  }

  /** With distinct keys, an entry survives the removal of the i-th key exactly when it is not the i-th entry. */
  lemma WithoutMembers<V>(d: Dict<V>, i: nat, j: nat)
    requires KeysDistinct(d) && i < |d| && j < |d|
    ensures d[j] in Without(d, d[i].0) <==> i != j
  {
    if i != j {
      WithoutKeeps(d, i, j);
    } else {
      WithoutDrops(d, d[i].0);
    }
  }

  lemma WithoutKeeps<V>(d: Dict<V>, i: nat, j: nat)
    requires KeysDistinct(d) && i < |d| && j < |d| && i != j
    ensures d[j] in Without(d, d[i].0)
  {
    WithoutKeyAt(d, i);
    var r := d[..i] + d[i + 1..];
    if j < i {
      assert r[j] == d[j];
    } else {
      assert r[j - 1] == d[j];
    }
  }

  lemma WithoutDrops<V>(d: Dict<V>, key: string)
    ensures forall x :: x in Without(d, key) ==> x.0 != key
  {
  }

  // ---------------------------------------------------------------------
  // Splitting capability lines at the first ':'
  // ---------------------------------------------------------------------

  /** No capability kind contains a ':'. */
  lemma KindsHaveNoColon(t: Tier, j: nat)
    requires j < 3
    ensures ':' !in Kinds(t)[j]
  {
    KindCharsNotColon(t, j);
  }

  predicate NoColon(s: string)
  {
    forall i :: 0 <= i < |s| ==> s[i] != ':'
  }

  lemma KindCharsNotColon(t: Tier, j: nat)
    requires j < 3
    ensures NoColon(Kinds(t)[j])
  {
    match t
    case InitialAdHoc => InitialAdHocKindsNoColon(j);
    case Developing => DevelopingKindsNoColon(j);
    case Defined => DefinedKindsNoColon(j);
    case Managed => ManagedKindsNoColon(j);
    case Optimized => OptimizedKindsNoColon(j);
  }

  lemma InitialAdHocKindsNoColon(j: nat)
    requires j < 3
    ensures NoColon(Kinds(InitialAdHoc)[j])
  {
  }

  lemma DevelopingKindsNoColon(j: nat)
    requires j < 3
    ensures NoColon(Kinds(Developing)[j])
  {
  }

  lemma DefinedKindsNoColon(j: nat)
    requires j < 3
    ensures NoColon(Kinds(Defined)[j])
  {
  }

  lemma ManagedKindsNoColon(j: nat)
    requires j < 3
    ensures NoColon(Kinds(Managed)[j])
  {
  }

  lemma OptimizedKindsNoColon(j: nat)
    requires j < 3
    ensures NoColon(Kinds(Optimized)[j])
  {
  }

  /**
   `capability.split(":", 1)` on a catalog line cannot fail, and yields the
   kind and the blank-led description.
   */
  lemma CapabilitySplits(t: Tier, j: nat)
    requires j < |Capabilities(t).capabilities|
    ensures var c := Capabilities(t).capabilities[j];
            SplitOnce(CapabilityText(c), ':') == Some((c.kind, " " + c.description))
  {
    var c := Capabilities(t).capabilities[j];
    KindsHaveNoColon(t, j);
    assert CapabilityText(c) == c.kind + [':'] + (" " + c.description);
    SplitOnceOfJoin(c.kind, ':', " " + c.description);
  }
}
