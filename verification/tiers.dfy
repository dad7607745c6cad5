/**
 The maturity ladder: the weighted average score is placed on one of five
 tiers by a chain of `<=` tests at 1.5, 2.5, 3.5 and 4.5, and the tier is
 shown as a coloured-circle emoji, a blank and the tier's name. The catalogs
 are keyed by the name, recovered from the label by deleting the five emoji
 and stripping whitespace.
 */
module Tiers {

  import opened Text

  datatype Tier = InitialAdHoc | Developing | Defined | Managed | Optimized

  const AllTiers: seq<Tier> := [InitialAdHoc, Developing, Defined, Managed, Optimized]

  /** Position on the ladder, 0 (lowest) to 4 (highest). */
  function Rank(t: Tier): (r: nat)
    ensures r < |AllTiers| && AllTiers[r] == t
  {
    match t
    case InitialAdHoc => 0
    case Developing => 1
    case Defined => 2
    case Managed => 3
    case Optimized => 4
  }

  /**
   The four cut points of the ladder. They coincide with the inner step
   boundaries of the score gauge (red 0-1.5, orange 1.5-2.5, yellow 2.5-3.5,
   green 3.5-4.5, blue 4.5-5).
   */
  const Cuts: seq<real> := [1.5, 2.5, 3.5, 4.5]

  /** The band of tier t: above the previous cut (if any), at or below its own cut (if any). */
  predicate InBand(t: Tier, score: real)
  {
    (Rank(t) == 0 || Cuts[Rank(t) - 1] < score) && (Rank(t) == 4 || score <= Cuts[Rank(t)])
  }

  /** The `if score <= 1.5 … elif … else` ladder. */
  function Classify(score: real): (t: Tier)
    ensures forall u :: InBand(u, score) <==> u == t
  {
    if score <= 1.5 then InitialAdHoc
    else if score <= 2.5 then Developing
    else if score <= 3.5 then Defined
    else if score <= 4.5 then Managed
    else Optimized
  }

  /** A higher score never lands on a lower tier. */
  lemma ClassifyMonotone(a: real, b: real)
    requires a <= b
    ensures Rank(Classify(a)) <= Rank(Classify(b))
  {
  }

  /** Each cut point belongs to the lower of the two tiers it separates. */
  lemma CutsGoDown(i: nat)
    requires i < |Cuts|
    ensures Rank(Classify(Cuts[i])) == i
  {
  }

  /** Every tier is reached: the cut point itself for the lower four, 5.0 for the top. */
  lemma EveryTierReached(t: Tier)
    ensures Classify(if t == Optimized then 5.0 else Cuts[Rank(t)]) == t
  {
  }

  /** The gauge steps, in the order drawn: lower end, upper end. */
  const GaugeSteps: seq<(real, real)> := [(0.0, 1.5), (1.5, 2.5), (2.5, 3.5), (3.5, 4.5), (4.5, 5.0)]

  /** On the gauge's range [0, 5] a score lies inside the step whose colour matches its tier. */
  lemma GaugeAgreesWithTier(score: real)
    requires 0.0 <= score <= 5.0
    ensures GaugeSteps[Rank(Classify(score))].0 <= score <= GaugeSteps[Rank(Classify(score))].1
  {
  }

  /** The tier's name: the key of both catalogs. */
  function Name(t: Tier): string
  {
    match t
    case InitialAdHoc => "Initial/Ad Hoc"
    case Developing => "Developing"
    case Defined => "Defined"
    case Managed => "Managed"
    case Optimized => "Optimized"
  }

  const RedCircle: char := '\U{1F534}'
  const OrangeCircle: char := '\U{1F7E0}'
  const YellowCircle: char := '\U{1F7E1}'
  const GreenCircle: char := '\U{1F7E2}'
  const BlueCircle: char := '\U{1F535}'

  /** The emoji in front of each tier's label. */
  function Glyph(t: Tier): (g: char)
    ensures IsGlyph(g)
  {
    match t
    case InitialAdHoc => RedCircle
    case Developing => OrangeCircle
    case Defined => YellowCircle
    case Managed => GreenCircle
    case Optimized => BlueCircle
  }

  predicate IsGlyph(c: char)
  {
    c == RedCircle || c == OrangeCircle || c == YellowCircle || c == GreenCircle || c == BlueCircle
  }

  /** The displayed maturity level, e.g. "🟡 Defined". */
  function Label(t: Tier): string
  {
    [Glyph(t)] + " " + Name(t)
  }

  /** The recommendation sentence shown with the level. */
  function Recommendation(t: Tier): string
  {
    match t
    case InitialAdHoc => "You are at the beginning point for Data Management. Start by defining data governance policies and improving data quality."
    case Developing => "You have basic policies but lack consistency. Focus on standardizing processes and improving data integration."
    case Defined => "You have structured processes, but there is room for more automation and real-time analytics."
    case Managed => "Your organization has well-established data governance. Continue refining automation and advanced analytics adoption."
    case Optimized => "Your organization is at the highest level of data maturity! Continue leveraging AI-driven insights for optimization."
  }

  /** Distinct tiers carry distinct names, so the name identifies the tier. */
  lemma NameInjective(t: Tier, u: Tier)
    requires Name(t) == Name(u)
    ensures t == u
  {
    if t != u && |Name(t)| == |Name(u)| {
      NamesOfEqualLengthDiffer(t, u);
    }
  }

  /** Only "Defined" and "Managed" share a length (7); their first letters differ. */
  lemma NamesOfEqualLengthDiffer(t: Tier, u: Tier)
    requires t != u && |Name(t)| == |Name(u)|
    ensures Name(t)[0] != Name(u)[0]
  {
  }

  /** The five emoji with the text that replaces each in a replace chain. */
  function GlyphTable(replacement: Tier -> string): (table: seq<(char, string)>)
    ensures |table| == |AllTiers|
    ensures forall k :: 0 <= k < |table| ==> table[k] == (Glyph(AllTiers[k]), replacement(AllTiers[k]))
  {
    seq(|AllTiers|, k requires 0 <= k < |AllTiers| => (Glyph(AllTiers[k]), replacement(AllTiers[k])))
  }

  /** Every emoji replaced by the empty text. */
  function Erased(t: Tier): string { "" }

  /** The chain `.replace("🔴", "")…replace("🔵", "")` applied to the label before the catalog lookups. */
  function RemoveGlyphs(s: string): string
  {
    ReplaceEach(s, GlyphTable(Erased))
  }

  /** The catalog key computed from a displayed level: emoji deleted, then `strip()`. */
  function LevelKey(level: string): string
  {
    Strip(RemoveGlyphs(level))
  }

  /** A tier's label is its emoji followed by ASCII text. */
  lemma LabelShape(t: Tier)
    ensures Label(t) == [Glyph(t)] + " " + Name(t)
    ensures IsPlain(" " + Name(t))
    ensures |Name(t)| > 0 && !IsSpace(Name(t)[0]) && !IsSpace(Name(t)[|Name(t)| - 1])
  {
  }

  lemma NameIsPlain(t: Tier)
    ensures IsPlain(Name(t))
  {
  }

  /** Replacing each emoji by tier-indexed ASCII text turns a tier's emoji into that tier's text. */
  lemma GlyphTableOnGlyph(t: Tier, replacement: Tier -> string)
    requires forall u :: IsPlain(replacement(u))
    ensures IsPlainTable(GlyphTable(replacement))
    ensures ReplaceEach([Glyph(t)], GlyphTable(replacement)) == replacement(t)
  {
    var table := GlyphTable(replacement);
    assert forall j :: 0 <= j < |table| ==> IsPlain(replacement(AllTiers[j]));
    ReplaceEachSingle(Glyph(t), table, Rank(t));
  }

  /** The lookup key recovered from a tier's label is exactly the tier's name. */
  lemma LevelKeyOfLabel(t: Tier)
    ensures LevelKey(Label(t)) == Name(t)
  {
    var rest := " " + Name(t);
    LabelShape(t);
    assert Label(t) == [Glyph(t)] + rest;
    GlyphTableOnGlyph(t, Erased);
    ReplaceEachConcat([Glyph(t)], rest, GlyphTable(Erased));
    ReplaceEachPlain(rest, GlyphTable(Erased));
    assert RemoveGlyphs(Label(t)) == rest;
    StripLeadingBlank(Name(t));
  }

  /**
   The PDF writer's rendering of the level: every emoji replaced by a tier
   name, so that the Latin-1 PDF font can print it.
   */
  function PdfLevelAsWritten(level: string): string
  {
    ReplaceEach(level, GlyphTable(Name))
  }

  /** As written, the tier name comes out twice: "🟡 Defined" becomes "Defined Defined". */
  lemma PdfLevelRepeatsName(t: Tier)
    ensures PdfLevelAsWritten(Label(t)) == Name(t) + " " + Name(t)
  {
    var rest := " " + Name(t);
    forall u ensures IsPlain(Name(u)) {
      NameIsPlain(u);
    }
    LabelShape(t);
    assert Label(t) == [Glyph(t)] + rest;
    GlyphTableOnGlyph(t, Name);
    ReplaceEachConcat([Glyph(t)], rest, GlyphTable(Name));
    ReplaceEachPlain(rest, GlyphTable(Name));
  }

  /** The level as the PDF should print it: the emoji dropped, the name once. */
  function PdfLevel(level: string): string
  {
    LevelKey(level)
  }

  /** The corrected rendering prints each tier's name exactly once. */
  lemma PdfLevelNamesTierOnce(t: Tier)
    ensures PdfLevel(Label(t)) == Name(t)
  {
    LevelKeyOfLabel(t);
  }
}
