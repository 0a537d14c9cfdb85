/** The adaptive learning engine: a tier per competency level, a study
    plan per tier (with subject-specific action steps for three
    subjects), the learning velocity of a subject's assessment history,
    and the performance analysis that combines them over all subjects. */
module AdaptiveLearning {
  import opened Common
  import opened Sorting

  // ---------------------------------------------------------------------
  // Tiers

  datatype LearningTier = Remedial | Reinforcement | Standard | Challenge

  /** getLearningTier: levels 1 to 4 select their tier; every other value,
      including a fractional one, falls back to the standard tier. */
  function GetLearningTier(score: real): (t: LearningTier)
    ensures t != Standard ==> score == TierLevel(t) as real
    ensures t == Standard <==> score != 1.0 && score != 2.0 && score != 4.0
  {
    if score == 1.0 then Remedial
    else if score == 2.0 then Reinforcement
    else if score == 3.0 then Standard
    else if score == 4.0 then Challenge
    else Standard
  }

  /** The competency level that selects a tier. */
  function TierLevel(t: LearningTier): int
  {
    match t
    case Remedial => 1
    case Reinforcement => 2
    case Standard => 3
    case Challenge => 4
  }

  /** Tiers and the levels 1 to 4 correspond one to one. */
  lemma {:induction false} TierLevelRoundTrip(t: LearningTier, level: int)
    requires 1 <= level <= 4
    ensures GetLearningTier(TierLevel(t) as real) == t
    ensures TierLevel(GetLearningTier(level as real)) == level
  {
    if level == 3 {
      assert GetLearningTier(3.0) == Standard;
    }
    if t == Standard {
      assert GetLearningTier(3.0) == Standard;
    }
  }

  /** The label of getTierConfig; colours, icons and CSS classes are
      presentation and are not modelled. */
  function TierLabel(t: LearningTier): string
  {
    match t
    case Remedial => "Foundation Building"
    case Reinforcement => "Gap Closing"
    case Standard => "Maintaining Progress"
    case Challenge => "Advanced Exploration"
  }

  lemma {:induction false} TierLabelsDistinct(t1: LearningTier, t2: LearningTier)
    requires t1 != t2
    ensures TierLabel(t1) != TierLabel(t2)
  {
    var l1, l2 := TierLabel(t1), TierLabel(t2);
    if |l1| == |l2| {
      // Only "Maintaining Progress" and "Advanced Exploration" share a
      // length; their first letters differ.
      assert l1[0] != l2[0];
    }
  }

  // ---------------------------------------------------------------------
  // Study plans

  datatype TierPlan = TierPlan(
    description: string,
    actionSteps: seq<string>,
    resources: seq<string>,
    estimatedTime: string)

  /** The generic texts of each tier's plan. */
  const PlanRemedial: TierPlan :=
    TierPlan(
      "Let's build a strong foundation step by step. We'll break down concepts into simple, manageable pieces.",
      ["Focus on absolute basics - master one concept at a time",
       "Practice 10-15 minutes daily with simple, guided exercises",
       "Use visual aids, manipulatives, and hands-on activities",
       "Get one-on-one support from teacher, tutor, or parent",
       "Celebrate small wins to build confidence"],
      ["Khan Academy (Basic level videos)",
       "BBC Bitesize (Foundation tier)",
       "Simplified worksheets and practice books",
       "Educational games and apps for foundational skills"],
      "6-8 weeks with consistent practice")

  const PlanReinforcement: TierPlan :=
    TierPlan(
      "You're on the right track! Let's close the gaps and build your confidence.",
      ["Review foundational concepts and identify specific gaps",
       "Practice 20-30 minutes daily with varied exercises",
       "Work through past mistakes to understand patterns",
       "Join peer study groups for collaborative learning",
       "Complete weekly mini-assessments to track progress"],
      ["Khan Academy (Standard level)",
       "Textbook practice problems",
       "Online practice quizzes",
       "Study group sessions with classmates"],
      "4-6 weeks of focused practice")

  const PlanStandard: TierPlan :=
    TierPlan(
      "Great work! Let's maintain this momentum and explore the subject more deeply.",
      ["Continue regular practice to maintain competency",
       "Explore real-world applications of concepts",
       "Help peers who are struggling (teaching reinforces learning)",
       "Try some challenge problems to test understanding",
       "Connect this subject to your interests and goals"],
      ["Standard curriculum materials",
       "Extension activities and projects",
       "Subject-specific clubs or competitions",
       "Online enrichment programs"],
      "Ongoing - maintain current level")

  const PlanChallenge: TierPlan :=
    TierPlan(
      "Outstanding! Let's push boundaries and explore advanced concepts.",
      ["Tackle advanced problems and extension questions",
       "Join competitions and olympiads in this subject",
       "Explore university-level concepts and resources",
       "Mentor other students and share your knowledge",
       "Connect with experts or professionals in this field"],
      ["Advanced textbooks and academic journals",
       "Online courses (Coursera, edX)",
       "Subject-specific competitions and challenges",
       "Mentorship programs with professionals"],
      "Ongoing - continue advancing")

  function PlanFor(t: LearningTier): TierPlan
  {
    match t
    case Remedial => PlanRemedial
    case Reinforcement => PlanReinforcement
    case Standard => PlanStandard
    case Challenge => PlanChallenge
  }

  const MathematicsStepsRemedial: seq<string> :=
    ["Master basic number operations (addition, subtraction, multiplication, division)",
     "Practice counting, place value, and number patterns daily",
     "Use concrete objects (blocks, counters) to visualize math concepts",
     "Work on times tables until automatic (5-10 min daily)",
     "Solve simple word problems with pictures and drawings"]

  const MathematicsStepsReinforcement: seq<string> :=
    ["Review fractions, decimals, and percentages thoroughly",
     "Practice mental math strategies daily",
     "Work through problem-solving steps systematically",
     "Complete timed exercises to build speed and accuracy",
     "Apply math to real-life situations (shopping, cooking, sports)"]

  const MathematicsStepsStandard: seq<string> :=
    ["Explore different problem-solving approaches",
     "Practice multi-step word problems regularly",
     "Connect math to science and technology applications",
     "Try math puzzles and logic games",
     "Participate in math challenges or clubs"]

  const MathematicsStepsChallenge: seq<string> :=
    ["Tackle olympiad-level problems and competitions",
     "Explore advanced topics (algebra, geometry proofs)",
     "Learn programming to apply mathematical thinking",
     "Study mathematical patterns and number theory",
     "Join Kenya Mathematics Olympiad or similar programs"]

  function MathematicsSteps(t: LearningTier): seq<string>
  {
    match t
    case Remedial => MathematicsStepsRemedial
    case Reinforcement => MathematicsStepsReinforcement
    case Standard => MathematicsStepsStandard
    case Challenge => MathematicsStepsChallenge
  }

  const IntegratedScienceStepsRemedial: seq<string> :=
    ["Review basic scientific concepts with videos and diagrams",
     "Conduct simple home experiments with adult supervision",
     "Create visual notes with pictures and labels",
     "Focus on one topic at a time (plants, animals, materials)",
     "Use science games and interactive apps"]

  const IntegratedScienceStepsReinforcement: seq<string> :=
    ["Practice the scientific method with simple investigations",
     "Keep a science journal documenting observations",
     "Watch educational documentaries and videos",
     "Complete hands-on experiments and projects",
     "Review key vocabulary and definitions regularly"]

  const IntegratedScienceStepsStandard: seq<string> :=
    ["Design and conduct your own science experiments",
     "Join science club or environmental groups",
     "Explore STEM career options and role models",
     "Read popular science books and magazines",
     "Connect science to current events and issues"]

  const IntegratedScienceStepsChallenge: seq<string> :=
    ["Participate in Kenya Science & Engineering Fair",
     "Explore advanced topics beyond curriculum",
     "Conduct independent research projects",
     "Shadow scientists or visit research facilities",
     "Study for science olympiads and competitions"]

  function IntegratedScienceSteps(t: LearningTier): seq<string>
  {
    match t
    case Remedial => IntegratedScienceStepsRemedial
    case Reinforcement => IntegratedScienceStepsReinforcement
    case Standard => IntegratedScienceStepsStandard
    case Challenge => IntegratedScienceStepsChallenge
  }

  const EnglishStepsRemedial: seq<string> :=
    ["Read simple books at your level for 15 minutes daily",
     "Practice basic grammar rules with worksheets",
     "Build vocabulary with flashcards (10 new words/week)",
     "Write simple sentences and short paragraphs",
     "Listen to English stories and audiobooks"]

  const EnglishStepsReinforcement: seq<string> :=
    ["Read grade-level books and discuss them",
     "Practice different types of writing (narrative, descriptive)",
     "Improve grammar through targeted exercises",
     "Expand vocabulary through context and word games",
     "Watch English programs with subtitles"]

  const EnglishStepsStandard: seq<string> :=
    ["Read diverse genres and authors regularly",
     "Write creative stories, essays, and reports",
     "Join debate club or drama group",
     "Practice public speaking and presentations",
     "Analyze literature and discuss themes"]

  const EnglishStepsChallenge: seq<string> :=
    ["Read classic literature and contemporary works",
     "Write for school newspaper or literary magazine",
     "Participate in writing competitions and debates",
     "Study advanced literary techniques and analysis",
     "Explore creative writing workshops"]

  function EnglishSteps(t: LearningTier): seq<string>
  {
    match t
    case Remedial => EnglishStepsRemedial
    case Reinforcement => EnglishStepsReinforcement
    case Standard => EnglishStepsStandard
    case Challenge => EnglishStepsChallenge
  }

  /** The subjects that have their own action steps. */
  predicate HasCustomSteps(subjectKey: string)
  {
    subjectKey == "mathematics" || subjectKey == "integrated_science" || subjectKey == "english"
  }

  /** getSubjectSpecificSteps: the steps of a known subject, otherwise none. */
  function SubjectSpecificSteps(subjectKey: string, t: LearningTier): seq<string>
  {
    if subjectKey == "mathematics" then MathematicsSteps(t)
    else if subjectKey == "integrated_science" then IntegratedScienceSteps(t)
    else if subjectKey == "english" then EnglishSteps(t)
    else []
  }

  /** A subject has its own steps for every tier, or for none. */
  lemma {:induction false} CustomStepsIff(subjectKey: string, t: LearningTier)
    ensures |SubjectSpecificSteps(subjectKey, t)| > 0 <==> HasCustomSteps(subjectKey)
  {
    match t
    case Remedial =>
    case Reinforcement =>
    case Standard =>
    case Challenge =>
  }

  /** The level each tier's plan aims for. */
  function TargetLevel(t: LearningTier): int
  {
    match t
    case Remedial => 2
    case Reinforcement => 3
    case Standard => 4
    case Challenge => 4
  }

  /** The record generateSubjectRecommendation returns. It stores what
      varies between recommendations; its texts follow from its tier and
      subject key through the accessors below. */
  datatype SubjectRecommendation = SubjectRecommendation(
    subject: string,
    currentLevel: real,
    tier: LearningTier,
    subjectKey: string,
    targetLevel: int)

  /** generateSubjectRecommendation (colour and icon left out). */
  function GenerateSubjectRecommendation(subject: string, currentLevel: real, subjectKey: string): SubjectRecommendation
  {
    var tier := GetLearningTier(currentLevel);
    SubjectRecommendation(subject, currentLevel, tier, subjectKey, TargetLevel(tier))
  }

  function TierLabelOf(r: SubjectRecommendation): string
  {
    TierLabel(r.tier)
  }

  function DescriptionOf(r: SubjectRecommendation): string
  {
    PlanFor(r.tier).description
  }

  /** The subject's own steps when it has any, else the tier's. */
  function ActionStepsOf(r: SubjectRecommendation): seq<string>
  {
    var customSteps := SubjectSpecificSteps(r.subjectKey, r.tier);
    if |customSteps| > 0 then customSteps else PlanFor(r.tier).actionSteps
  }

  function ResourcesOf(r: SubjectRecommendation): seq<string>
  {
    PlanFor(r.tier).resources
  }

  function EstimatedTimeOf(r: SubjectRecommendation): string
  {
    PlanFor(r.tier).estimatedTime
  }

  /** The action steps are the subject's own exactly when the subject has
      some, and the tier's generic ones otherwise. */
  lemma {:induction false} ActionStepsFollowSubject(r: SubjectRecommendation)
    ensures HasCustomSteps(r.subjectKey) ==> ActionStepsOf(r) == SubjectSpecificSteps(r.subjectKey, r.tier)
    ensures !HasCustomSteps(r.subjectKey) ==> ActionStepsOf(r) == PlanFor(r.tier).actionSteps
  {
    CustomStepsIff(r.subjectKey, r.tier);
  }

  /** The target is one level up, capped at the top level 4. */
  lemma {:induction false} TargetLevelIsNextLevel(subject: string, level: int, subjectKey: string)
    requires 1 <= level <= 4
    ensures var r := GenerateSubjectRecommendation(subject, level as real, subjectKey);
      && level <= r.targetLevel <= 4
      && (level < r.targetLevel <==> level < 4)
      && r.targetLevel == if level < 4 then level + 1 else 4
  {
    TierLevelRoundTrip(Standard, level);
  }

  // ---------------------------------------------------------------------
  // Learning velocity

  datatype Assessment = Assessment(term: int, score: real)

  datatype Trend = Accelerating | Steady | Slowing | InsufficientData

  datatype LearningVelocity = LearningVelocity(subject: string, velocity: real, trend: Trend, prediction: string)

  const InsufficientDataPrediction: string := "Need at least 2 assessments to calculate velocity"
  const SlowPrediction: string := "Slow but steady improvement - keep practicing!"
  const DecliningPrediction: string := "Declining - needs immediate intervention and support"
  const StablePrediction: string := "Stable performance - maintain current effort"

  /** The sum of the changes between consecutive scores among the first n. */
  function TotalChange(a: seq<Assessment>, n: nat): real
    requires 1 <= n <= |a|
  {
    if n == 1 then 0.0 else TotalChange(a, n - 1) + (a[n - 1].score - a[n - 2].score)
  }

  /** The changes telescope to the last score minus the first. */
  lemma {:induction false} TotalChangeTelescopes(a: seq<Assessment>, n: nat)
    requires 1 <= n <= |a|
    ensures TotalChange(a, n) == a[n - 1].score - a[0].score
  {
    if n > 1 {
      TotalChangeTelescopes(a, n - 1);
    }
  }

  /** The trend compares the latest change with the first one. */
  function TrendOf(a: seq<Assessment>): Trend
    requires |a| >= 2
  {
    if |a| >= 3 then
      var recentChange := a[|a| - 1].score - a[|a| - 2].score;
      var earlierChange := a[1].score - a[0].score;
      if recentChange > earlierChange + 0.3 then Accelerating
      else if recentChange < earlierChange - 0.3 then Slowing
      else Steady
    else Steady
  }

  /** Math.ceil((Math.floor(current) + 1 - current) / velocity) */
  function TermsToNext(current: real, velocity: real): int
    requires velocity > 0.0
  {
    Ceil(((Floor(current) + 1) as real - current) / velocity)
  }

  function PaceLine(current: real, velocity: real): string
    requires velocity > 0.0
  {
    "At current pace, will reach level " + IntToString(Floor(current) + 1) +
    " in " + IntToString(TermsToNext(current, velocity)) + " term(s)"
  }

  /** The prediction, decided on the unrounded velocity. */
  function PredictionOf(current: real, velocity: real): string
  {
    if velocity > 0.5 then PaceLine(current, velocity)
    else if velocity > 0.1 then SlowPrediction
    else if velocity < -0.1 then DecliningPrediction
    else StablePrediction
  }

  /** What calculateLearningVelocity returns for an assessment history. */
  function VelocityOf(subject: string, a: seq<Assessment>): LearningVelocity
  {
    if |a| < 2 then LearningVelocity(subject, 0.0, InsufficientData, InsufficientDataPrediction)
    else
      var velocity := TotalChange(a, |a|) / (|a| - 1) as real;
      LearningVelocity(subject, Round2(velocity), TrendOf(a), PredictionOf(a[|a| - 1].score, velocity))
  }

  /** calculateLearningVelocity */
  method CalculateLearningVelocity(subjectKey: string, assessments: seq<Assessment>) returns (r: LearningVelocity)
    ensures r == VelocityOf(subjectKey, assessments)
  {
    if |assessments| < 2 {
      return LearningVelocity(subjectKey, 0.0, InsufficientData, InsufficientDataPrediction);
    }
    var totalChange := 0.0;
    var i := 1;
    while i < |assessments|
      invariant 1 <= i <= |assessments|
      invariant totalChange == TotalChange(assessments, i)
    {
      totalChange := totalChange + (assessments[i].score - assessments[i - 1].score);
      i := i + 1;
    }
    var velocity := totalChange / (|assessments| - 1) as real;

    var trend;
    if |assessments| >= 3 {
      var recentChange := assessments[|assessments| - 1].score - assessments[|assessments| - 2].score;
      var earlierChange := assessments[1].score - assessments[0].score;
      if recentChange > earlierChange + 0.3 {
        trend := Accelerating;
      } else if recentChange < earlierChange - 0.3 {
        trend := Slowing;
      } else {
        trend := Steady;
      }
    } else {
      trend := Steady;
    }

    var prediction := "";
    var currentScore := assessments[|assessments| - 1].score;
    if velocity > 0.5 {
      var termsToNext := Ceil(((Floor(currentScore) + 1) as real - currentScore) / velocity);
      prediction := "At current pace, will reach level " + IntToString(Floor(currentScore) + 1) +
                    " in " + IntToString(termsToNext) + " term(s)";
    } else if velocity > 0.1 {
      prediction := SlowPrediction;
    } else if velocity < -0.1 {
      prediction := DecliningPrediction;
    } else {
      prediction := StablePrediction;
    }

    TotalChangeTelescopes(assessments, |assessments|);
    assert trend == TrendOf(assessments);
    assert prediction == PredictionOf(currentScore, velocity);
    r := LearningVelocity(subjectKey, Round2(velocity), trend, prediction);
  }

  /** The mean change per term: last score minus first over the number of
      intervals. */
  function MeanChange(a: seq<Assessment>): real
    requires |a| >= 2
  {
    (a[|a| - 1].score - a[0].score) / (|a| - 1) as real
  }

  /** Fewer than two assessments give no velocity; from two on, the
      reported velocity is the mean change rounded to two decimals. */
  lemma {:induction false} VelocityIsMeanChange(subject: string, a: seq<Assessment>)
    ensures var r := VelocityOf(subject, a);
      && r.subject == subject
      && (r.trend == InsufficientData <==> |a| < 2)
      && (|a| < 2 ==> r.velocity == 0.0 && r.prediction == InsufficientDataPrediction)
      && (|a| >= 2 ==> r.velocity == Round2(MeanChange(a)))
  {
    if |a| >= 2 {
      TotalChangeTelescopes(a, |a|);
    }
  }

  /** Two assessments are always steady; from three on, the latest change
      decides against the first with a margin of 0.3 either way. */
  lemma {:induction false} TrendRules(subject: string, a: seq<Assessment>)
    requires |a| >= 2
    ensures var t := VelocityOf(subject, a).trend;
      var recentChange := a[|a| - 1].score - a[|a| - 2].score;
      var earlierChange := a[1].score - a[0].score;
      && (|a| == 2 ==> t == Steady)
      && (|a| >= 3 ==>
            && (t == Accelerating <==> recentChange > earlierChange + 0.3)
            && (t == Slowing <==> recentChange < earlierChange - 0.3)
            && (t == Steady <==> earlierChange - 0.3 <= recentChange <= earlierChange + 0.3))
  {
  }

  /** The prediction by bands of the unrounded mean change. */
  lemma {:induction false} PredictionRules(subject: string, a: seq<Assessment>)
    requires |a| >= 2
    ensures var p := VelocityOf(subject, a).prediction;
      var v := MeanChange(a);
      && (v > 0.5 ==> p == PaceLine(a[|a| - 1].score, v))
      && (0.1 < v <= 0.5 ==> p == SlowPrediction)
      && (v < -0.1 ==> p == DecliningPrediction)
      && (-0.1 <= v <= 0.1 ==> p == StablePrediction)
  {
    TotalChangeTelescopes(a, |a|);
  }

  lemma {:induction false} CeilBounds(gap: real, velocity: real, t: int)
    requires gap > 0.0 && velocity > 0.0
    requires gap / velocity <= t as real < gap / velocity + 1.0
    ensures gap <= t as real * velocity
    ensures (t - 1) as real * velocity < gap
  {
    var q := gap / velocity;
    var d := t as real - q;
    assert q * velocity == gap;
    assert 0.0 <= d < 1.0;
    assert (1.0 - d) * velocity > 0.0;
    assert t as real * velocity == gap + d * velocity;
    assert d * velocity < velocity;
    var tv := t as real * velocity;
    assert (t - 1) as real * velocity == tv - velocity;
    assert tv - velocity < gap;
  }

  /** The number of terms announced is the least number of terms after
      which the current pace reaches the next whole level; at a pace above
      half a level per term that is one or two terms. */
  lemma {:induction false} TermsToNextIsLeast(current: real, velocity: real)
    requires velocity > 0.0
    ensures var t := TermsToNext(current, velocity);
      && t >= 1
      && current + t as real * velocity >= (Floor(current) + 1) as real
      && current + (t - 1) as real * velocity < (Floor(current) + 1) as real
      && (velocity > 0.5 ==> t <= 2)
  {
    var gap := (Floor(current) + 1) as real - current;
    var t := TermsToNext(current, velocity);
    assert 0.0 < gap <= 1.0;
    CeilBounds(gap, velocity, t);
    if velocity > 0.5 {
      assert t as real * velocity < gap + velocity;
      assert (t - 2) as real * velocity < gap - velocity;
    }
  }

  // ---------------------------------------------------------------------
  // Performance analysis

  /** The historical data is optional; when present it maps subjects to
      their assessments. */
  type History = Option<seq<(string, seq<Assessment>)>>

  /** `historicalData && historicalData[subject]`: an empty history is
      still present. */
  function HistoryFor(history: History, subject: string): Option<seq<Assessment>>
  {
    if history.None? then None else Lookup(history.value, subject)
  }

  datatype PerformanceAnalysis = PerformanceAnalysis(
    overallTier: LearningTier,
    subjectsNeedingSupport: nat,
    subjectsExcelling: nat,
    averageVelocity: real,
    recommendations: seq<SubjectRecommendation>,
    velocities: seq<LearningVelocity>)

  function TotalScore(scores: seq<(string, real)>): real
  {
    if scores == [] then 0.0
    else TotalScore(scores[..|scores| - 1]) + scores[|scores| - 1].1
  }

  function NeedingSupport(scores: seq<(string, real)>): nat
  {
    if scores == [] then 0
    else NeedingSupport(scores[..|scores| - 1]) + if scores[|scores| - 1].1 <= 2.0 then 1 else 0
  }

  function Excelling(scores: seq<(string, real)>): nat
  {
    if scores == [] then 0
    else Excelling(scores[..|scores| - 1]) + if scores[|scores| - 1].1 >= 4.0 then 1 else 0
  }

  /** The values of `f` over the entries, in their order. */
  function MapEntries<R>(scores: seq<(string, real)>, f: (string, real) -> R): (r: seq<R>)
    ensures |r| == |scores|
  {
    if scores == [] then []
    else MapEntries(scores[..|scores| - 1], f) + [f(scores[|scores| - 1].0, scores[|scores| - 1].1)]
  }

  lemma {:induction false} MapEntriesAt<R>(scores: seq<(string, real)>, f: (string, real) -> R, i: int)
    requires 0 <= i < |scores|
    ensures MapEntries(scores, f)[i] == f(scores[i].0, scores[i].1)
  {
    if i < |scores| - 1 {
      MapEntriesAt(scores[..|scores| - 1], f, i);
    }
  }

  /** Sorting the mapped entries keeps one value per entry and nothing
      else, in order of the key. */
  lemma {:induction false} SortedMapCovers<R>(scores: seq<(string, real)>, f: (string, real) -> R, key: R -> real)
    ensures var s := SortByKey(MapEntries(scores, f), key);
      && (forall i :: 0 <= i < |scores| ==> f(scores[i].0, scores[i].1) in s)
      && (forall x :: x in s ==> exists i :: 0 <= i < |scores| && x == f(scores[i].0, scores[i].1))
      && SortedByKey(s, key)
  {
    var all := MapEntries(scores, f);
    var s := SortByKey(all, key);
    SortPermutation(all, key);
    SortSorted(all, key);
    forall i | 0 <= i < |scores|
      ensures f(scores[i].0, scores[i].1) in s
    {
      MapEntriesAt(scores, f, i);
      assert all[i] in multiset(all);
    }
    forall x | x in s
      ensures exists i :: 0 <= i < |scores| && x == f(scores[i].0, scores[i].1)
    {
      assert x in multiset(s);
      var i :| 0 <= i < |all| && all[i] == x;
      MapEntriesAt(scores, f, i);
    }
  }

  /** The recommendation analyzePerformance makes for a subject, whose
      name doubles as its key. */
  function RecommendationFor(subject: string, score: real): SubjectRecommendation
  {
    GenerateSubjectRecommendation(subject, score, subject)
  }

  /** One recommendation per subject, in the order of the scores. */
  function Recommendations(scores: seq<(string, real)>): seq<SubjectRecommendation>
  {
    MapEntries(scores, RecommendationFor)
  }

  /** One velocity per subject with a history, in the order of the scores. */
  function Velocities(scores: seq<(string, real)>, history: History): seq<LearningVelocity>
  {
    if scores == [] then []
    else
      var subject := scores[|scores| - 1].0;
      var h := HistoryFor(history, subject);
      Velocities(scores[..|scores| - 1], history) + if h.Some? then [VelocityOf(subject, h.value)] else []
  }

  function VelocitySum(vs: seq<LearningVelocity>): real
  {
    if vs == [] then 0.0 else VelocitySum(vs[..|vs| - 1]) + vs[|vs| - 1].velocity
  }

  /** The tier of the rounded mean score; with no subjects the mean is NaN,
      which matches no level and gives the standard tier. */
  function OverallTier(scores: seq<(string, real)>): LearningTier
  {
    if |scores| == 0 then Standard
    else GetLearningTier(Round(TotalScore(scores) / |scores| as real) as real)
  }

  /** The mean velocity rounded to two decimals, 0 without velocities. */
  function AverageVelocity(vs: seq<LearningVelocity>): real
  {
    Round2(if |vs| > 0 then VelocitySum(vs) / |vs| as real else 0.0)
  }

  function ByLevel(r: SubjectRecommendation): real { r.currentLevel }

  function ByVelocity(v: LearningVelocity): real { v.velocity }

  /** The pass of analyzePerformance over the subjects: it sums and counts
      the scores and collects a recommendation per subject and a velocity
      per subject with a history. */
  method CollectSubjects(subjectScores: seq<(string, real)>, historicalData: History)
    returns (totalScore: real, subjectsNeedingSupport: nat, subjectsExcelling: nat,
             recommendations: seq<SubjectRecommendation>, velocities: seq<LearningVelocity>)
    ensures totalScore == TotalScore(subjectScores)
    ensures subjectsNeedingSupport == NeedingSupport(subjectScores)
    ensures subjectsExcelling == Excelling(subjectScores)
    ensures recommendations == Recommendations(subjectScores)
    ensures velocities == Velocities(subjectScores, historicalData)
  {
    recommendations := [];
    velocities := [];
    totalScore := 0.0;
    subjectsNeedingSupport := 0;
    subjectsExcelling := 0;

    var i := 0;
    while i < |subjectScores|
      invariant 0 <= i <= |subjectScores|
      invariant totalScore == TotalScore(subjectScores[..i])
      invariant subjectsNeedingSupport == NeedingSupport(subjectScores[..i])
      invariant subjectsExcelling == Excelling(subjectScores[..i])
      invariant recommendations == Recommendations(subjectScores[..i])
      invariant velocities == Velocities(subjectScores[..i], historicalData)
    {
      var (subject, score) := subjectScores[i];
      assert subjectScores[..i + 1][..i] == subjectScores[..i];
      totalScore := totalScore + score;
      if score <= 2.0 {
        subjectsNeedingSupport := subjectsNeedingSupport + 1;
      }
      if score >= 4.0 {
        subjectsExcelling := subjectsExcelling + 1;
      }
      var rec := GenerateSubjectRecommendation(subject, score, subject);
      recommendations := recommendations + [rec];
      var h := HistoryFor(historicalData, subject);
      if h.Some? {
        var velocity := CalculateLearningVelocity(subject, h.value);
        velocities := velocities + [velocity];
      }
      i := i + 1;
    }
    assert subjectScores[..i] == subjectScores;
  }

  /** analyzePerformance: one pass over the subjects, then the overall
      tier and mean velocity, then both lists sorted in place, the
      recommendations by level and the velocities by velocity. */
  method AnalyzePerformance(subjectScores: seq<(string, real)>, historicalData: History) returns (r: PerformanceAnalysis)
    ensures r.overallTier == OverallTier(subjectScores)
    ensures r.subjectsNeedingSupport == NeedingSupport(subjectScores)
    ensures r.subjectsExcelling == Excelling(subjectScores)
    ensures r.averageVelocity == AverageVelocity(Velocities(subjectScores, historicalData))
    ensures r.recommendations == SortByKey(Recommendations(subjectScores), ByLevel)
    ensures r.velocities == SortByKey(Velocities(subjectScores, historicalData), ByVelocity)
  {
    var totalScore, subjectsNeedingSupport, subjectsExcelling, recommendations, velocities :=
      CollectSubjects(subjectScores, historicalData);

    var overallTier := if |subjectScores| == 0 then Standard
                       else GetLearningTier(Round(totalScore / |subjectScores| as real) as real);
    var avgVelocity := if |velocities| > 0 then VelocitySum(velocities) / |velocities| as real else 0.0;

    var sortedRecommendations := new SubjectRecommendation[|recommendations|](k requires 0 <= k < |recommendations| => recommendations[k]);
    assert sortedRecommendations[..] == recommendations;
    InsertionSort(sortedRecommendations, ByLevel);
    var sortedVelocities := new LearningVelocity[|velocities|](k requires 0 <= k < |velocities| => velocities[k]);
    assert sortedVelocities[..] == velocities;
    InsertionSort(sortedVelocities, ByVelocity);

    r := PerformanceAnalysis(overallTier, subjectsNeedingSupport, subjectsExcelling, Round2(avgVelocity),
                             sortedRecommendations[..], sortedVelocities[..]);
  }

  // ---------------------------------------------------------------------
  // Properties of the analysis

  /** Every subject gets exactly its own recommendation, and the list is
      ordered from the lowest level up. */
  lemma {:induction false} RecommendationsCoverSubjects(scores: seq<(string, real)>)
    ensures var recs := SortByKey(Recommendations(scores), ByLevel);
      && |recs| == |scores|
      && (forall i :: 0 <= i < |scores| ==>
            GenerateSubjectRecommendation(scores[i].0, scores[i].1, scores[i].0) in recs)
      && (forall x :: x in recs ==>
            exists i :: 0 <= i < |scores| && x == GenerateSubjectRecommendation(scores[i].0, scores[i].1, scores[i].0))
      && (forall i, j :: 0 <= i < j < |recs| ==> recs[i].currentLevel <= recs[j].currentLevel)
  {
    var recs := SortByKey(Recommendations(scores), ByLevel);
    SortedMapCovers(scores, RecommendationFor, ByLevel);
    forall i, j | 0 <= i < j < |recs|
      ensures recs[i].currentLevel <= recs[j].currentLevel
    {
      assert ByLevel(recs[i]) <= ByLevel(recs[j]);
    }
  }

  lemma {:induction false} VelocitiesMember(scores: seq<(string, real)>, history: History, x: LearningVelocity)
    ensures x in Velocities(scores, history) <==>
      exists i :: 0 <= i < |scores| && HistoryFor(history, scores[i].0).Some? &&
                  x == VelocityOf(scores[i].0, HistoryFor(history, scores[i].0).value)
  {
    if scores != [] {
      var init := scores[..|scores| - 1];
      VelocitiesMember(init, history, x);
      if exists i :: 0 <= i < |init| && HistoryFor(history, init[i].0).Some? &&
                     x == VelocityOf(init[i].0, HistoryFor(history, init[i].0).value) {
        var i :| 0 <= i < |init| && HistoryFor(history, init[i].0).Some? &&
                 x == VelocityOf(init[i].0, HistoryFor(history, init[i].0).value);
        assert scores[i] == init[i];
      }
      if exists i :: 0 <= i < |scores| && HistoryFor(history, scores[i].0).Some? &&
                     x == VelocityOf(scores[i].0, HistoryFor(history, scores[i].0).value) {
        var i :| 0 <= i < |scores| && HistoryFor(history, scores[i].0).Some? &&
                 x == VelocityOf(scores[i].0, HistoryFor(history, scores[i].0).value);
        if i < |init| {
          assert scores[i] == init[i];
        }
      }
    }
  }

  lemma {:induction false} VelocitiesLength(scores: seq<(string, real)>, history: History)
    ensures |Velocities(scores, history)| <= |scores|
    ensures history.None? ==> Velocities(scores, history) == []
  {
    if scores != [] {
      VelocitiesLength(scores[..|scores| - 1], history);
    }
  }

  lemma {:induction false} SortedVelocitiesMember(scores: seq<(string, real)>, history: History, x: LearningVelocity)
    ensures x in SortByKey(Velocities(scores, history), ByVelocity) <==>
      exists i :: 0 <= i < |scores| && HistoryFor(history, scores[i].0).Some? &&
                  x == VelocityOf(scores[i].0, HistoryFor(history, scores[i].0).value)
  {
    var all := Velocities(scores, history);
    var vs := SortByKey(all, ByVelocity);
    SortPermutation(all, ByVelocity);
    VelocitiesMember(scores, history, x);
    assert x in vs <==> x in multiset(vs);
  }

  lemma {:induction false} SortedVelocitiesOrdered(vs: seq<LearningVelocity>)
    ensures var sorted := SortByKey(vs, ByVelocity);
            forall i, j :: 0 <= i < j < |sorted| ==> sorted[i].velocity <= sorted[j].velocity
  {
    var sorted := SortByKey(vs, ByVelocity);
    SortSorted(vs, ByVelocity);
    forall i, j | 0 <= i < j < |sorted|
      ensures sorted[i].velocity <= sorted[j].velocity
    {
      assert ByVelocity(sorted[i]) <= ByVelocity(sorted[j]);
    }
  }

  /** Exactly the subjects with a history (even an empty one) get a
      velocity, the list is ordered from the most declining up, and without
      historical data there are none and the average is 0. */
  lemma {:induction false} VelocitiesForSubjectsWithHistory(scores: seq<(string, real)>, history: History)
    ensures var vs := SortByKey(Velocities(scores, history), ByVelocity);
      && (forall x :: x in vs <==>
            exists i :: 0 <= i < |scores| && HistoryFor(history, scores[i].0).Some? &&
                        x == VelocityOf(scores[i].0, HistoryFor(history, scores[i].0).value))
      && (forall i, j :: 0 <= i < j < |vs| ==> vs[i].velocity <= vs[j].velocity)
      && |vs| <= |scores|
      && (history.None? ==> vs == [] && AverageVelocity(Velocities(scores, history)) == 0.0)
  {
    var all := Velocities(scores, history);
    forall x {
      SortedVelocitiesMember(scores, history, x);
    }
    SortedVelocitiesOrdered(all);
    SortPermutation(all, ByVelocity);
    VelocitiesLength(scores, history);
  }

  lemma {:induction false} VelocitySumBounds(vs: seq<LearningVelocity>, lo: real, hi: real)
    requires forall i :: 0 <= i < |vs| ==> lo <= vs[i].velocity <= hi
    ensures |vs| as real * lo <= VelocitySum(vs) <= |vs| as real * hi
  {
    if vs != [] {
      var init := vs[..|vs| - 1];
      assert forall i :: 0 <= i < |init| ==> init[i] == vs[i];
      VelocitySumBounds(init, lo, hi);
      assert |vs| as real * lo == |init| as real * lo + lo;
      assert |vs| as real * hi == |init| as real * hi + hi;
    }
  }

  lemma {:induction false} MeanBounds(total: real, n: nat, lo: real, hi: real)
    requires n > 0 && n as real * lo <= total <= n as real * hi
    ensures lo <= total / n as real <= hi
  {
  }

  /** The average velocity lies within the range of the velocities, up to
      the rounding to two decimals. */
  lemma {:induction false} AverageVelocityWithinRange(vs: seq<LearningVelocity>, lo: real, hi: real)
    requires |vs| > 0
    requires forall i :: 0 <= i < |vs| ==> lo <= vs[i].velocity <= hi
    ensures lo - 0.005 < AverageVelocity(vs) <= hi + 0.005
  {
    VelocitySumBounds(vs, lo, hi);
    MeanBounds(VelocitySum(vs), |vs|, lo, hi);
  }

  /** No subject is both in need of support and excelling, and each count
      is zero exactly when no score lies in its band. */
  lemma {:induction false} CountsPartitionScores(scores: seq<(string, real)>)
    ensures NeedingSupport(scores) + Excelling(scores) <= |scores|
    ensures NeedingSupport(scores) == 0 <==> forall i :: 0 <= i < |scores| ==> scores[i].1 > 2.0
    ensures Excelling(scores) == 0 <==> forall i :: 0 <= i < |scores| ==> scores[i].1 < 4.0
  {
    if scores != [] {
      var init := scores[..|scores| - 1];
      CountsPartitionScores(init);
      assert forall i :: 0 <= i < |init| ==> init[i] == scores[i];
    }
  }

  lemma {:induction false} TotalScoreBounds(scores: seq<(string, real)>, lo: real, hi: real)
    requires forall i :: 0 <= i < |scores| ==> lo <= scores[i].1 <= hi
    ensures |scores| as real * lo <= TotalScore(scores) <= |scores| as real * hi
  {
    if scores != [] {
      var init := scores[..|scores| - 1];
      assert forall i :: 0 <= i < |init| ==> init[i] == scores[i];
      TotalScoreBounds(init, lo, hi);
      assert |scores| as real * lo == |init| as real * lo + lo;
      assert |scores| as real * hi == |init| as real * hi + hi;
    }
  }

  /** With every level between 1 and 4, the overall tier is the tier whose
      level is the rounded mean; with no subjects it is the standard tier. */
  lemma {:induction false} OverallTierIsRoundedMean(scores: seq<(string, real)>)
    requires forall i :: 0 <= i < |scores| ==> 1.0 <= scores[i].1 <= 4.0
    ensures |scores| == 0 ==> OverallTier(scores) == Standard
    ensures |scores| > 0 ==>
      var m := Round(TotalScore(scores) / |scores| as real);
      1 <= m <= 4 && TierLevel(OverallTier(scores)) == m
  {
    if |scores| > 0 {
      TotalScoreBounds(scores, 1.0, 4.0);
      MeanBounds(TotalScore(scores), |scores|, 1.0, 4.0);
      var m := Round(TotalScore(scores) / |scores| as real);
      TierLevelRoundTrip(Standard, m);
    }
  }
}
