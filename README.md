# Learner guidance and payments core, modelled in Dafny

This project models the decision logic of a CBC (Kenyan Competency Based
Curriculum) learning platform. It covers four parts:

- **Pathway calculator** (`PathwayCalculator`). A Junior School learner's subject scores (levels 1–4) become three
  weighted pathway scores: STEM, Arts & Sports and Social Sciences. From them it picks a recommended pathway,
  rates the confidence from the lead over the runner-up, and lists strengths and development areas. It also
  builds the guidance message for parents and formats subject keys as readable names.
- **Adaptive learning** (`AdaptiveLearning`). Each subject score gets a learning tier and a study plan. Subject
  specific action steps replace the generic ones for mathematics, integrated science and English. A learning
  velocity (with a trend and a prediction) comes from a series of assessments. A whole score record is analysed
  into an overall tier, counts of weak and strong subjects, an average velocity, and the recommendations and
  velocities sorted with the weakest first.
- **Competency framework** (`CompetencyFramework`). The generic CBC levels and the three subject frameworks,
  the lookup of a level's description, and the skill-gap analysis between a current and a target level.
- **Payment configuration** (`PaymentConfig`). The three subscription plans, the normalisation of phone numbers
  to the `254…` form used for M-Pesa, and whether a subscription is active.

Two shared modules support them:

- `Common` holds optional values, JavaScript's `Math.floor`/`ceil`/`round` over exact reals, the decimal text of
  integers as template strings render them, and association lists. Those lists stand for JavaScript records: they
  keep the keys in insertion order and the first entry wins.
- `Sorting` holds a stable insertion sort by a real key. It is given as a function (`SortByKey`) and as an in-place
  method on an array (`InsertionSort`) proved equal to it. This is how the model renders the in-place
  `Array.prototype.sort` calls with a numeric comparator, which are stable.

Code that changes variables step by step is written as methods proved equal to specification functions:
- the weighted-score loop;
- the `+=` construction of the guidance message;
- the velocity loop;
- the `forEach` in `analyzePerformance` that pushes recommendations and velocities, followed by the two in-place
  sorts.

Lookups and text tables are functions.

A subject recommendation records the subject, its level, its tier, its subject key and its target level. Its
tier label, description, action steps, resources and estimated time are functions of the tier and the key
(`TierLabelOf`, `DescriptionOf`, `ActionStepsOf`, `ResourcesOf`, `EstimatedTimeOf`). They are the same texts
`generateSubjectRecommendation` copies into its result.

## Model

| member | source | states |
|---|---|---|
| Common.Round | lib/pathwayCalculator.ts:92-94 | `Math.round` lies within one half of its argument, halves rounding up |
| Common.Round2 | lib/adaptiveLearning.ts:352 | `Math.round(x * 100) / 100` lies within 0.005 of x and has at most two decimal places |
| Common.Ceil | lib/adaptiveLearning.ts:340 | `Math.ceil` is the least integer not below its argument |
| Common.NatToStringRoundTrip | lib/competencyFramework.ts:300-302 | reading back the decimal text `${n}` of a natural number gives n |
| Common.IntToString | lib/competencyFramework.ts:311-314 | the text of an integer starts with '-' exactly when it is negative, and is digits otherwise |
| Common.IntToStringRoundTrip | lib/competencyFramework.ts:311-314 | the digits of `${i}` after the sign of a negative number read back as the magnitude of i, with no leading zero unless i is 0 |
| Common.LookupFirst | lib/pathwayCalculator.ts:112 | a record lookup finds a value exactly when the key is present, and finds that key's first entry |
| Common.LookupUnique | lib/pathwayCalculator.ts:73 | with the unique keys of a record, looking up an entry's key finds that entry's value |
| Sorting.SortPermutation | lib/adaptiveLearning.ts:403-404 | the stable sort returns a permutation of its input |
| Sorting.SortSorted | lib/adaptiveLearning.ts:403-404 | the stable sort's output is ordered by the key |
| Sorting.SortHead | lib/pathwayCalculator.ts:54-55 | the first element after sorting is the earliest element with the least key, so ties keep input order |
| Sorting.InsertionSort | lib/pathwayCalculator.ts:54 | the in-place sort of an array leaves exactly the stable sort of its old contents |
| PathwayCalculator.CalculateWeightedScore | lib/pathwayCalculator.ts:107-118 | the loop over the weights returns the weighted mean of the subjects' percentages, or 0 with no weight |
| PathwayCalculator.WeightedScoreBounds | lib/pathwayCalculator.ts:107-118 | with scores 0 to 4 and positive weights, a pathway score is between 0 and 100 |
| PathwayCalculator.AllExceedingGivesHundred | lib/pathwayCalculator.ts:113 | every weighted subject at level 4 gives exactly 100 |
| PathwayCalculator.AllBelowGivesTwentyFive | lib/pathwayCalculator.ts:113 | every weighted subject at level 1 gives exactly 25 |
| PathwayCalculator.TotalAfterChange | lib/pathwayCalculator.ts:111-115 | changing one subject's score moves the weighted total by the change in its percentage times its weight |
| PathwayCalculator.TotalAfterAppend | lib/pathwayCalculator.ts:111-115 | assessing a missing subject at level v adds its percentage times its weight to the weighted total |
| PathwayCalculator.MissingSubjectCountsAsZero | lib/pathwayCalculator.ts:112 | a subject missing from the scores counts as 0, not as absent: adding it at level v raises the score by its weighted percentage over the unchanged total weight |
| PathwayCalculator.ZeroForEmpty | lib/pathwayCalculator.ts:112-117 | with no scores at all, every pathway score is 0 |
| PathwayCalculator.RankingOrder | lib/pathwayCalculator.ts:49-55 | the descending sort puts the highest score first and the middle one second; on a tie the earlier of STEM, Arts & Sports, Social Sciences leads |
| PathwayCalculator.Classify | lib/pathwayCalculator.ts:58-67 | high exactly when the lead exceeds 20, medium when it is above 10 and at most 20, low otherwise |
| PathwayCalculator.ConfidenceMonotone | lib/pathwayCalculator.ts:61-67 | a larger lead never gives a lower confidence |
| PathwayCalculator.KeysWhere | lib/pathwayCalculator.ts:70-72 | the filtered keys are exactly the keys whose score passes the filter, at most one per entry, and every entry's key in entry order when all pass |
| PathwayCalculator.StrengthsAreHighScores | lib/pathwayCalculator.ts:70-73 | strengths are exactly the subjects scored 3 or above, as a permutation of the filtered keys, highest score first |
| PathwayCalculator.DevelopmentAreasAreLowScores | lib/pathwayCalculator.ts:76-79 | development areas are exactly the subjects scored 2 or below, as a permutation of the filtered keys, lowest score first |
| PathwayCalculator.StrengthsAndAreasDisjoint | lib/pathwayCalculator.ts:69-79 | no subject is both a strength and a development area |
| PathwayCalculator.ToUpper | lib/pathwayCalculator.ts:221 | ASCII lower-case letters are upper-cased, every other character is kept |
| PathwayCalculator.Split | lib/pathwayCalculator.ts:220 | splitting yields at least one part |
| PathwayCalculator.TitleCaseIsByChar | lib/pathwayCalculator.ts:220-222 | split, capitalise and join equals a single left-to-right pass over the characters |
| PathwayCalculator.TitleCaseShape | lib/pathwayCalculator.ts:220-222 | title-casing keeps the length, turns every `_` into a space, keeps every other space, and changes no character that does not start a word |
| PathwayCalculator.FormatSubjectNameCases | lib/pathwayCalculator.ts:198-223 | keys in the special-name table get their special name; for every other key the name has the key's length, no `_`, a space exactly where the key has `_` or a space, the first character of each word upper-cased and every other character unchanged |
| PathwayCalculator.FirstThree | lib/pathwayCalculator.ts:183 | `slice(0, 3)` is the prefix of length min(3, n) |
| PathwayCalculator.GenerateGuidanceMessage | lib/pathwayCalculator.ts:123-193 | the message built by successive `+=` equals the opening, recommendation, development-area and disclaimer blocks in that order |
| PathwayCalculator.AppendRecommendations | lib/pathwayCalculator.ts:152-178 | the pathway's recommendation lines are appended after the message so far |
| PathwayCalculator.AppendDevelopmentAreas | lib/pathwayCalculator.ts:181-187 | the area header and one line per area, for at most three areas, are appended when there are areas |
| PathwayCalculator.GuidanceEndsWithDisclaimer | lib/pathwayCalculator.ts:190 | every message ends with the fixed disclaimer |
| PathwayCalculator.GuidanceListsAtMostThreeAreas | lib/pathwayCalculator.ts:183-186 | development areas after the third never change the message |
| PathwayCalculator.StemCompetitionBulletsIff | lib/pathwayCalculator.ts:152-163 | for STEM, the competition bullets follow the header exactly when mathematics and integrated science are both present at level 3 or above |
| PathwayCalculator.CalculateJuniorPathwayAffinity | lib/pathwayCalculator.ts:20-102 | the procedure, including the in-place sort of the three pathways, returns the recommendation the specification function defines |
| PathwayCalculator.AffinityTopAndConfidence | lib/pathwayCalculator.ts:48-95 | the top pathway has the highest unrounded score, ties going to the earlier pathway; confidence is rated on the unrounded lead over the middle score; the stored scores are rounded |
| PathwayCalculator.TiedTopGivesLow | lib/pathwayCalculator.ts:58-67 | when two pathways share the highest score the confidence is low |
| PathwayCalculator.AffinityScoresArePercentages | lib/pathwayCalculator.ts:92-94 | with scores 0 to 4 the three stored scores are whole numbers from 0 to 100 |
| PathwayCalculator.EmptyScoresGiveStemLow | lib/pathwayCalculator.ts:20-102 | an empty score record scores 0 everywhere and falls to STEM with low confidence and no strengths or areas |
| PathwayCalculator.SampleLearnerIsStem | lib/pathwayCalculator.ts:22-67 | a learner at level 4 in mathematics and science scores 94/35/40 and gets STEM with high confidence |
| AdaptiveLearning.GetLearningTier | lib/adaptiveLearning.ts:38-44 | the tiers remedial, reinforcement and challenge are given for exactly the scores 1, 2 and 4; every other number gives standard |
| AdaptiveLearning.TierLevelRoundTrip | lib/adaptiveLearning.ts:38-44 | levels 1 to 4 and the four tiers correspond one to one |
| AdaptiveLearning.TierLabelsDistinct | lib/adaptiveLearning.ts:49-90 | different tiers carry different labels |
| AdaptiveLearning.CustomStepsIff | lib/adaptiveLearning.ts:201-296 | subject-specific steps exist exactly for mathematics, integrated science and English |
| AdaptiveLearning.ActionStepsFollowSubject | lib/adaptiveLearning.ts:181-191 | a recommendation's action steps are the subject's own steps for its tier when the subject has some, otherwise the tier plan's steps |
| AdaptiveLearning.TargetLevelIsNextLevel | lib/adaptiveLearning.ts:103-194 | for a level from 1 to 4 the target is the next level, capped at 4 |
| AdaptiveLearning.TotalChangeTelescopes | lib/adaptiveLearning.ts:315-318 | the sum of the term-to-term changes is the last score minus the first |
| AdaptiveLearning.CalculateLearningVelocity | lib/adaptiveLearning.ts:301-356 | the loop returns the velocity record the specification function defines |
| AdaptiveLearning.VelocityIsMeanChange | lib/adaptiveLearning.ts:305-352 | with fewer than two assessments: velocity 0, insufficient data and the fixed prediction; otherwise the velocity is the mean change per term rounded to two decimals |
| AdaptiveLearning.TrendRules | lib/adaptiveLearning.ts:323-333 | accelerating or slowing exactly when the latest change exceeds or falls short of the first change by more than 0.3; two assessments are steady |
| AdaptiveLearning.PredictionRules | lib/adaptiveLearning.ts:336-348 | the prediction is chosen by the unrounded velocity's band: above 0.5, above 0.1, below -0.1, otherwise stable |
| AdaptiveLearning.CeilBounds | lib/adaptiveLearning.ts:340 | the ceiling of gap/velocity terms is enough to cover the gap, and one term fewer is not |
| AdaptiveLearning.TermsToNextIsLeast | lib/adaptiveLearning.ts:339-341 | the predicted number of terms is the least that reaches the next whole level at the current pace, and at most 2 when the pace exceeds 0.5 |
| AdaptiveLearning.MapEntries | lib/adaptiveLearning.ts:373-381 | one result per subject entry |
| AdaptiveLearning.MapEntriesAt | lib/adaptiveLearning.ts:380-381 | the i-th result is made from the i-th subject entry |
| AdaptiveLearning.SortedMapCovers | lib/adaptiveLearning.ts:403 | sorting the mapped entries keeps one result per entry, and each entry's result, in key order |
| AdaptiveLearning.CollectSubjects | lib/adaptiveLearning.ts:365-388 | the forEach accumulates the total, both counters, the recommendations and the velocities the specification functions define |
| AdaptiveLearning.AnalyzePerformance | lib/adaptiveLearning.ts:361-405 | overall tier, counts, average velocity, and recommendations and velocities, each sorted stably ascending by the in-place sort |
| AdaptiveLearning.RecommendationsCoverSubjects | lib/adaptiveLearning.ts:373-403 | one recommendation per subject, each subject's recommendation present, ordered by ascending level |
| AdaptiveLearning.VelocitiesMember | lib/adaptiveLearning.ts:384-387 | a velocity is listed exactly when it is that of a subject that has history |
| AdaptiveLearning.VelocitiesLength | lib/adaptiveLearning.ts:384-387 | at most one velocity per subject, and none without historical data |
| AdaptiveLearning.VelocitiesForSubjectsWithHistory | lib/adaptiveLearning.ts:384-404 | the sorted velocities are exactly those of the subjects with history, ascending; without history they are empty and the average is 0 |
| AdaptiveLearning.VelocitySumBounds | lib/adaptiveLearning.ts:395 | the velocity sum lies between n times the lowest and n times the highest velocity |
| AdaptiveLearning.MeanBounds | lib/adaptiveLearning.ts:395 | a mean of values in a range stays in that range |
| AdaptiveLearning.AverageVelocityWithinRange | lib/adaptiveLearning.ts:394-402 | the rounded average velocity lies within 0.005 of the range of the velocities |
| AdaptiveLearning.CountsPartitionScores | lib/adaptiveLearning.ts:376-377 | no subject is counted both as needing support and as excelling; none needs support exactly when every score is above 2, none excels exactly when every score is below 4 |
| AdaptiveLearning.TotalScoreBounds | lib/adaptiveLearning.ts:374 | the score total lies between n times the lowest and n times the highest score |
| AdaptiveLearning.OverallTierIsRoundedMean | lib/adaptiveLearning.ts:390-391 | with scores 1 to 4 the overall tier is that of the rounded mean score, which is 1 to 4; an empty record gives standard |
| CompetencyFramework.FindValidLevel | lib/competencyFramework.ts:264 | in a level table listing 1, 2, 3, 4, `find` succeeds exactly for levels 1 to 4 and returns that level's entry |
| CompetencyFramework.FindLevelAt | lib/competencyFramework.ts:262-264 | `find` returns the first entry with the level |
| CompetencyFramework.FindLevelMissing | lib/competencyFramework.ts:262-264 | `find` returns nothing when no entry has the level |
| CompetencyFramework.SubjectCompetenciesValid | lib/competencyFramework.ts:74-255 | every subject framework lists levels 1, 2, 3, 4 in order with four indicators each, and the subject keys are distinct |
| CompetencyFramework.CbcLevelsValid | lib/competencyFramework.ts:20-69 | the generic CBC table lists levels 1, 2, 3, 4 in order with four indicators each |
| CompetencyFramework.DescriptionInValid | lib/competencyFramework.ts:260-265 | over valid tables, a description exists exactly for levels 1 to 4: the subject's own entry, or the generic entry for a subject without a framework |
| CompetencyFramework.CompetencyDescriptionLevels | lib/competencyFramework.ts:260-265 | `getCompetencyDescription` describes the requested level exactly for levels 1 to 4, and falls back to the generic CBC level for an unknown subject |
| CompetencyFramework.LeadingDigits | lib/competencyFramework.ts:300-302 | the longest prefix of decimal digits: a prefix, all digits, and followed by the end of the text or a non-digit |
| CompetencyFramework.NumberedGapsReadBack | lib/competencyFramework.ts:300-302 | each gap reads back as its position counted from 1, then ". ", then the indicator at that position |
| CompetencyFramework.LeadingInt | lib/competencyFramework.ts:311-314 | reads the integer at the head of a text: the consumed part is an optional '-' and digits whose value is the magnitude of the result, negated after a '-', and the rest is a suffix that does not start with a digit |
| CompetencyFramework.LeadingIntOf | lib/competencyFramework.ts:311-314 | the text of any integer followed by a non-digit reads back as that integer and that text |
| CompetencyFramework.RangeReadBack | lib/competencyFramework.ts:311-314 | a range `${lo}-${hi}` followed by a non-digit reads back as lo, a dash, hi and the rest |
| CompetencyFramework.TimeEstimateReadBack | lib/competencyFramework.ts:311-314 | for every gap other than 1, including zero and negative gaps, the estimate reads back as 6 times the gap, a dash, 8 times the gap, then " weeks with dedicated practice" |
| CompetencyFramework.TimeEstimateNotPositive | lib/competencyFramework.ts:311-314 | a gap of 0 gives "0-0 weeks…" and a negative gap a negative estimate: these cases are not treated specially |
| CompetencyFramework.SkillGapsInCases | lib/competencyFramework.ts:270-316 | a fixed answer without a framework; empty results and 'Unknown' exactly when a level is not 1 to 4; otherwise the numbered indicators of the target, four next steps led by its learning focus, and the estimate for the gap |
| CompetencyFramework.AnalyzeSkillGapsCases | lib/competencyFramework.ts:270-298 | the same three outcomes for `analyzeSkillGaps` over the CBC tables, with four gaps and four next steps in the normal case |
| PaymentConfig.PlanPricesAndTokens | lib/payments/config.ts:3-86 | plans cost 0, 300 and 1500 KES and grant 3, 50 and 999999 AI tokens |
| PaymentConfig.DearerPlanGrantsMoreTokens | lib/payments/config.ts:3-47 | a dearer plan grants more tokens, and only the free plan costs nothing |
| PaymentConfig.Filter | lib/payments/config.ts:98 | a global `replace` of rejected characters keeps only accepted characters and never lengthens the text |
| PaymentConfig.FilterKeepsAll | lib/payments/config.ts:98 | text made only of accepted characters is left unchanged |
| PaymentConfig.FilterAbsorbs | lib/payments/config.ts:98 | a first pass that removes only characters the second pass removes anyway changes nothing |
| PaymentConfig.CleanPhoneKeepsPhoneChars | lib/payments/config.ts:98 | the two `replace` passes keep exactly the digits and '+' signs of the input, in order |
| PaymentConfig.FormatPhoneNumberPhoneChars | lib/payments/config.ts:97-103 | every formatted number starts with 254 and has only digits and '+' |
| PaymentConfig.FormatPhoneNumberShape | lib/payments/config.ts:97-103 | the result starts with 254 and has only digits and '+'; with c the cleaned input less one leading '+': a leading 0 of c is replaced by 254, a c starting with 254 is returned as it is, and any other c gets 254 in front |
| PaymentConfig.FormatPhoneNumberIdempotent | lib/payments/config.ts:97-103 | formatting a formatted number changes nothing |
| PaymentConfig.FilterAppend | lib/payments/config.ts:98 | filtering distributes over concatenation |
| PaymentConfig.FormatIgnoresSeparators | lib/payments/config.ts:98 | a space, dash or any other character that is not a digit or '+' can be inserted anywhere without changing the result |
| PaymentConfig.FormatLocalNumber | lib/payments/config.ts:100 | a local number 0 + digits becomes 254 + the same digits (0712345678 gives 254712345678) |
| PaymentConfig.FormatInternationalNumber | lib/payments/config.ts:99-101 | +254 + digits loses only its '+' |
| PaymentConfig.SubscriptionActiveRules | lib/payments/config.ts:105-111 | never active unless the status is active; active without an expiry or with an empty (falsy) expiry text; with a non-empty expiry, active exactly while the expiry is strictly later than now |
| PaymentConfig.ActiveEarlier | lib/payments/config.ts:105-111 | a subscription active at some time was active at every earlier time, so an expired one never becomes active again |

## Left out

- Colours, icons and CSS classes: the `color`/`icon` fields of tier configs and recommendations,
  `getConfidenceColor`, `getConfidenceBadge` and `getPathwayColor`. They are presentation only.
- `formatCurrency` (lib/payments/config.ts:88-95). It is a call into `Intl.NumberFormat`, whose locale rules are
  not visible.
- The `Payment` record and the payment method and status enumerations (lib/payments/config.ts:50-82). They are
  declarations without behaviour.
- `calculated_at` (lib/pathwayCalculator.ts:100) reads the wall clock. It is a parameter of
  `CalculateJuniorPathwayAffinity`.
- `isSubscriptionActive`'s `new Date()` and date parsing are parameters. `now` is passed in, and so is the
  function from an expiry text to a time, where an invalid date is None and compares as false.
- JavaScript numbers are modelled as exact reals or integers. IEEE-754 rounding (for example whether
  0.40 + 0.35 + 0.25 is exactly 1) and NaN are not modelled. The one NaN the code can produce is the mean of an
  empty score record in `analyzePerformance`. It is modelled by its effect: `Math.round(NaN)` matches no tier,
  so the tier is standard.
- PathwayCalculator scores are integers (the curriculum levels 1–4), so `scores[k] || 0` is "missing gives 0".
  AdaptiveLearning scores are reals, because they are averaged and compared with fractional thresholds.
- CompetencyFramework levels are integers. A fractional level finds no description, just as an integer outside
  1–4 does, so the model loses no outcome.
- Record keys that JavaScript resolves on `Object.prototype` (such as `constructor`) are not modelled. The model
  treats every key not listed in a table as missing.
- `toUpperCase` is modelled for ASCII letters only.
- The tier plans' `targetLevel` field is `TargetLevel(tier)`. The other plan texts are derived from the tier and
  the subject key rather than stored in each recommendation.
- AdaptiveLearning.AnalyzePerformance: the lists collected by the loop are copied into fresh arrays before the
  in-place sort, so array aliasing with the caller is not modelled.

