# The Virtual Narrative — scoring and report core, in Dafny

The Virtual Narrative is a Streamlit questionnaire that rates an
organisation's data maturity on six pillars:

- Data Governance;
- Data Quality;
- Metadata Management;
- Data Integration;
- Data Analytics & AI;
- Data Security & Privacy.

The user first rates how important each pillar is. Those six importance
ratings become the pillar weights. The user then answers three questions per
pillar, one section after another. Once the last section is submitted, the
results page does the following:

- scores the first answer of each pillar (the integer in its "(k)" suffix);
- weights those scores and sums them;
- places the sum on a five-tier ladder from "Initial/Ad Hoc" to "Optimized";
- writes one insight sentence per pillar from the raw first-answer rating;
- looks up the tier's capability and recommendation entries by name;
- lists the other four tiers as a roadmap.

This project models that core as pure functions over immutable data. The
modules follow the program's stages:

| module | models |
|---|---|
| `Wrappers` | `Option` and `Result` |
| `Pillars` | the six pillars in dictionary order; `PerPillar<T>`, a six-entry record standing in for the pillar-keyed dicts |
| `ScoreExtractor` | `extract_score`, the leftmost `\((\d+)\)` match, or 1 |
| `Weights` | dynamic weights (rating / total), the zero-total error, the default weights |
| `Scoring` | weighted scores and their sum |
| `Tiers` | the tier ladder, emoji labels, recommendations, the emoji-stripping lookup key, the PDF level text |
| `Text` | Python's `strip`, `replace` and `split(":", 1)` |
| `Insights` | `generate_ai_insights` and a parser that reads an insight back |
| `Catalog` | `analytics_capabilities`, `dynamic_recommendations`, `dict.get`, the roadmap filter |
| `Report` | the results page assembled from the stored answers and weights |
| `Session` | the session state, one step per button press, and `calculate_progress` |

Numbers are exact: weights and scores are `real`, not binary floats.
Python's `ZeroDivisionError` in the weight computation is the `Failure`
branch of a `Result`.

Three facts about the code shape the model:

- The code has no "equal weights" mode. Until the weighting stage completes,
  the session holds fixed default weights of 0.20, 0.20 and then 0.15 four
  times. The results page is only reachable after the weighting stage, so it
  always uses weights computed from importance ratings
  (`Session.ResultsUseSetWeights`).
- The weight computation has no guard against a zero total.
- The insight bands compare an integer rating with 2 and 3.5. So the middle
  band is the single rating 3, not a range.

The report records the PDF's level line as the code writes it, with the
tier's name twice (see "## Findings"); the corrected rendering is proved
alongside it.

## Model

| member | source | states |
|---|---|---|
| ScoreExtractor.ExtractScore | virtual_narrative.py:13-16 | The score is the decimal value of the leftmost "(" digits ")" group. With no such group anywhere in the answer, the score is 1. |
| ScoreExtractor.FirstGroupWins | virtual_narrative.py:15 | After a prefix in which every "(" is followed by a non-digit, the first group's numeral is the score, whatever follows. Later groups are ignored. |
| ScoreExtractor.NumeralRoundTrip | virtual_narrative.py:16 | `int()` of a rendered decimal numeral gives back the number. |
| ScoreExtractor.OptionTextScore | virtual_narrative.py:283-287 | An option written "caption (k)" scores k when every "(" in its caption is followed, inside the caption, by a non-digit. Every option of the questionnaire has such a caption. |
| ScoreExtractor.DefaultAnswerScore | virtual_narrative.py:100 | The default answer " (1)" scores 1. |
| ScoreExtractor.NoParenthesisScoresOne | virtual_narrative.py:16 | Text without any "(" falls back to 1. |
| ScoreExtractor.GovernanceOptionTwoScore | virtual_narrative.py:284 | "Some informal rules, but not enforced (2)" scores 2. |
| ScoreExtractor.RbacOptionScore | virtual_narrative.py:485 | "(RBAC)" before the rating does not hide it: the option scores 3. |
| Weights.ComputeWeights | virtual_narrative.py:243-252 | Fails exactly when the six ratings total 0. Otherwise each weight times the total is that pillar's rating, and the weights are non-negative and sum to exactly 1. |
| Weights.NormaliseIsWeightVector | virtual_narrative.py:243-252 | Ratings divided by their positive total are non-negative and sum to exactly 1. |
| Weights.WeightBounds | virtual_narrative.py:194-252 | With every importance option rated 1 to 5, the computation succeeds and every weight lies in [1/26, 1/2]. |
| Weights.ImportanceExample | virtual_narrative.py:243-252 | Ratings 1, 2, 3, 4, 5, 5 give weights 0.05, 0.10, 0.15, 0.20, 0.25, 0.25. |
| Weights.DefaultWeights | virtual_narrative.py:91-98 | The default weights are 0.20 for Governance and Quality and 0.15 for the other four. They form a weight vector. |
| Scoring.AggregateWithinRatingRange | virtual_narrative.py:835-836 | For a weight vector, the sum of the weighted scores lies between the lowest and the highest rating. |
| Scoring.UniformRatingsAggregate | virtual_narrative.py:836 | Equal ratings r on all six pillars give the aggregate r, for any weights summing to 1. |
| Scoring.AggregateMonotone | virtual_narrative.py:826-836 | Raising any rating never lowers the aggregate, for non-negative weights. |
| Scoring.WeightedScoreBound | virtual_narrative.py:826-833 | For ratings 1 to 5, each weighted score lies between 0 and 5 times its weight. |
| Tiers.Classify | virtual_narrative.py:842-856 | The tier chosen is the unique tier whose band (above the previous cut, at or below its own) holds the score. |
| Tiers.ClassifyMonotone | virtual_narrative.py:842-856 | A higher score never gets a lower tier. |
| Tiers.CutsGoDown | virtual_narrative.py:842-853 | Each cut point 1.5, 2.5, 3.5, 4.5 belongs to the lower of the two tiers it separates. |
| Tiers.EveryTierReached | virtual_narrative.py:842-856 | Every tier is the classification of some score. |
| Tiers.GaugeAgreesWithTier | virtual_narrative.py:27-32 | For scores in [0, 5], the gauge step a score falls in has its tier's position. |
| Tiers.NameInjective | virtual_narrative.py:843-855 | Distinct tiers have distinct names, so a name identifies its tier. |
| Tiers.LevelKeyOfLabel | virtual_narrative.py:883 | Deleting the five emoji from a tier's label and stripping gives exactly the tier's name. |
| Tiers.PdfLevelRepeatsName | virtual_narrative.py:697 | As written, the PDF level line reads "name name": the emoji becomes the name and the label's own name follows it. |
| Tiers.PdfLevelNamesTierOnce | virtual_narrative.py:697 | The corrected PDF level text is the tier's name exactly once. |
| Text.StripIdempotent | virtual_narrative.py:883 | Stripping twice is the same as stripping once. |
| Text.StripLeadingBlank | virtual_narrative.py:883 | `strip()` of a blank followed by a trimmed non-empty text gives that text. |
| Text.ReplaceEachConcat | virtual_narrative.py:883 | A chain of single-code-point `.replace` calls distributes over concatenation. |
| Text.ReplaceEachPlain | virtual_narrative.py:883 | A chain that replaces only non-ASCII code points by ASCII text leaves ASCII text unchanged. |
| Text.SplitOnce | virtual_narrative.py:729 | The split fails (ValueError) exactly when there is no ':'. Otherwise the head holds no ':'. |
| Text.SplitOnceRoundTrip | virtual_narrative.py:729 | Head, ':' and tail joined give back the split text. |
| Text.SplitOnceOfJoin | virtual_narrative.py:760 | A colon-free head, ':' and any tail split back into that head and tail. |
| Insights.BandOf | virtual_narrative.py:523-528 | A rating of 2 or less is Low (red), exactly 3 is Medium (yellow), 4 or more is High (green). |
| Insights.BandOfMonotone | virtual_narrative.py:523-528 | A higher rating never gets a lower band. |
| Insights.InsightLocality | virtual_narrative.py:518-570 | A pillar's sentence depends on that pillar's rating alone. |
| Insights.ParseInsightRoundTrip | virtual_narrative.py:518-570 | Every insight sentence reads back as the pillar and band it was written for, so no two coincide. |
| Insights.InsightsDecode | virtual_narrative.py:518-570 | The i-th generated insight reads back as the i-th pillar with its rating's band. |
| Catalog.Lookup | virtual_narrative.py:883 | `get` gives None exactly when no entry has the key. Otherwise it gives the value of an entry with that key. |
| Catalog.LookupAt | virtual_narrative.py:883 | With distinct keys, looking up the i-th key gives the i-th value. |
| Catalog.TierDictKeysDistinct | virtual_narrative.py:573-673 | The catalogs' keys are distinct. |
| Catalog.LookupByLabel | virtual_narrative.py:883-903 | For every tier, the key built from its label finds its entry in both catalogs. The "not found" branches are dead. |
| Catalog.Without | virtual_narrative.py:908-913 | The filter keeps only entries of the catalog whose key differs from the given one. |
| Catalog.WithoutKeyAt | virtual_narrative.py:925 | With distinct keys, filtering out the i-th key removes exactly the i-th entry and keeps the order. |
| Catalog.RoadmapIsOtherTiers | virtual_narrative.py:908-913 | The roadmap is the capability catalog with the current tier's entry removed, in order: four entries. |
| Catalog.RoadmapMembers | virtual_narrative.py:908-913 | A tier's entry is on the roadmap exactly when it is not the current tier. Lower tiers are included. |
| Catalog.KindsHaveNoColon | virtual_narrative.py:573-614 | No capability kind contains a ':'. |
| Catalog.CapabilitySplits | virtual_narrative.py:729 | Every catalog capability line splits at its first ':' into its kind and " " + description. The PDF split never fails. |
| Report.AssembleReport | virtual_narrative.py:824-913 | Both catalog sections are found, there are six insights and the roadmap has four tiers. |
| Report.ReportConsistent | virtual_narrative.py:824-913 | The score is the weighted sum of the first-answer ratings, and the weighted scores are those ratings times their weights. Everything on the results page agrees with the score's tier: band, label, recommendation, both catalog entries and roadmap. The PDF level line is stored as line 697 writes it, with the tier's name twice; the corrected rendering reads it once. |
| Report.FollowUpAnswersIgnored | virtual_narrative.py:826-833 | Answers to the second and third question of every section never change the report. |
| Report.ReportScoreInRange | virtual_narrative.py:835-836 | With a weight vector and first answers scoring 1 to 5, the score is in [1, 5] and each weighted score is in [0, 5 × weight]. |
| Report.ReportInsightsInPillarOrder | virtual_narrative.py:870-877 | The i-th insight on the page is the i-th pillar's, banded by its first answer. |
| Report.DefaultAnswersReport | virtual_narrative.py:99-104 | Untouched answers score exactly 1.0 and land on Initial/Ad Hoc, for any weights summing to 1. |
| Report.UniformAnswersReport | virtual_narrative.py:826-856 | The same rating r on every first answer gives score r and its tier, for any weights summing to 1. |
| Pillars.Count | virtual_narrative.py:260-267 | The count of completed sections is at most 6. It is 6 exactly when all are complete and 0 exactly when none is. |
| Session.InitialSessionInv | virtual_narrative.py:79-105 | The session defaults satisfy the session invariant. |
| Session.StepInv | virtual_narrative.py:161-515 | Every button press keeps the session invariant. |
| Session.ReachableInv | virtual_narrative.py:161-515 | Every session reached from the defaults has these properties: the question counter is in 1..3; sections complete in pillar order, after weights, after user details; the final flag equals the last section's flag; the weights form a weight vector, equal to the defaults before the weighting stage and to weights computed from some ratings after it. |
| Session.OneSectionOpen | virtual_narrative.py:277-477 | In a reachable session at most one section is shown at a time. |
| Session.SetWeightsStoresComputed | virtual_narrative.py:235-254 | "Set Weights" stores the weights computed from the six selected options' scores and marks the stage done. When those scores total 0 the run aborts and the session is unchanged. |
| Session.StepKeepsProgress | virtual_narrative.py:161-515 | No press clears a completion flag, the user-details flag or the weights flag. Set weights are never changed. |
| Session.NextStoresAnswer | virtual_narrative.py:288-301 | "Next" stores the current question's answer in the open section and advances the counter by one. Other sections' answers and all completion flags are unchanged. |
| Session.SubmitCompletesSection | virtual_narrative.py:510-515 | Submit stores the third answer, keeps the section's first two answers, completes the section and resets the counter to 1, as every section's submit does (lines 310-313 for Data Governance). The final flag is set exactly for the last section, Data Security & Privacy. |
| Session.SectionWalkthrough | virtual_narrative.py:277-315 | Next, Next, Submit in an open section complete it with exactly the three answers given. |
| Session.ResultsUseSetWeights | virtual_narrative.py:824 | When the results page shows, every section is complete, the weighting stage is done, and the weights in force are the ones the weight computation gives for some ratings. |
| Session.CalculateProgress | virtual_narrative.py:259-268 | The progress is the truncated percentage 100·c/6 of completed sections, in [0, 100]. It is 100 exactly when all are complete and 0 exactly when none is. |
| Session.ProgressMonotone | virtual_narrative.py:259-268 | The progress bar never goes back. |
| Session.FullProgressIffResults | virtual_narrative.py:259-268 | In a reachable session the bar is at 100% exactly when the results page is shown. |

## Left out

- Rendering is not modelled: Streamlit widgets, HTML and CSS, the logo file, the Plotly gauge drawing, and the PDF layout beyond the level line. The gauge's step boundaries are modelled only as constants (`Tiers.GaugeSteps`).
- E-mail sending (SMTP, credentials, attachments) and file I/O are I/O and out of scope.
- The user's organisation name and business unit are collected but never used by the core.
- Streamlit's rerun mechanics are not modelled: widget state keyed by `key=`, the page re-running top to bottom, and a button press reaching the handler of the block rendered on that run. Each press is one `Session.Event`. A press on a button that is not shown leaves the state unchanged.
- The `window.location.reload()` HTML button is not modelled; only the Streamlit "Let's do this!" button is.
- Binary floating point is not modelled. Weights and scores are exact reals, so the weights sum to exactly 1. Python's float rounding (a sum of 0.9999999999999999, say) can in principle move a score sitting exactly on a cut point; that is left out.
- The two-decimal display formatting of scores is left out.
- ScoreExtractor.ExtractScore: `\d` is modelled as the ASCII digits 0-9. Python's `\d` also matches other Unicode decimal digits. The answer options contain only ASCII digits. Python's `int()` also refuses a numeral of more than 4300 digits (the default `sys.int_max_str_digits`) with a ValueError, while the model reads a numeral of any length; no answer option comes near that.
- Tiers.Recommendation, Insights.Advice and the catalog descriptions carry their exact source text. No lemma inspects those long sentences beyond their use as values, so no distinctness of recommendation texts is proved.
- The PDF prints insights with the band emoji replaced by tier names (virtual_narrative.py:715), so a red insight reads "Initial/Ad Hoc **Data Governance**: …". This text is not modelled.
- The PDF's `strip()` of each capability description (virtual_narrative.py:733) is not modelled. Only the split before it is (`Catalog.CapabilitySplits`).
- app.py, the other variant of the page flow, is not part of this model.

## Findings

| source | as written | input that shows it | evidently intended | confidence | as-written member | corrected member |
|---|---|---|---|---|---|---|
| virtual_narrative.py:697 | The PDF level line replaces each emoji of the label by the tier name, but the label already holds the name after the emoji. | The level "🔴 Initial/Ad Hoc" prints as "Initial/Ad Hoc Initial/Ad Hoc". | Print the tier's name once: drop the emoji, as the catalog lookups do. | high; not executed | Tiers.PdfLevelRepeatsName | Tiers.PdfLevelNamesTierOnce |
