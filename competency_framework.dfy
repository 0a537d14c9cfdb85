/** The CBC competency framework: the four generic competency levels, the
    subject frameworks for mathematics, integrated science and English,
    the lookup of a level's description and the skill-gap analysis between
    a learner's current and target level. */
module CompetencyFramework {
  import opened Common

  datatype CompetencyLevel = CompetencyLevel(
    level: int,
    name: string,
    description: string,
    indicators: seq<string>,
    learningFocus: string)

  datatype SubjectCompetency = SubjectCompetency(
    subject: string,
    skillAreas: seq<string>,
    levelDescriptions: seq<CompetencyLevel>)

  /** The result of analyzeSkillGaps. */
  datatype SkillGaps = SkillGaps(gaps: seq<string>, nextSteps: seq<string>, timeEstimate: string)

  // ---------------------------------------------------------------------
  // The tables.

  const CbcLevels: seq<CompetencyLevel> := [
    CompetencyLevel(1, "Below Expectations (BE)",
      "Learner requires significant support to meet learning outcomes",
      ["Struggles with basic concepts",
       "Needs extensive guidance and scaffolding",
       "Limited independent work capability",
       "Requires one-on-one intervention"],
      "Foundation building with intensive support"),
    CompetencyLevel(2, "Approaching Expectations (AE)",
      "Learner is developing towards meeting learning outcomes",
      ["Grasps some concepts but inconsistently",
       "Needs regular support and reinforcement",
       "Can complete tasks with guidance",
       "Shows improvement but gaps remain"],
      "Gap closing and confidence building"),
    CompetencyLevel(3, "Meeting Expectations (ME)",
      "Learner consistently meets expected learning outcomes",
      ["Demonstrates solid understanding",
       "Works independently on grade-level tasks",
       "Applies concepts in familiar contexts",
       "Performs at expected competency level"],
      "Maintaining and deepening understanding"),
    CompetencyLevel(4, "Exceeding Expectations (EE)",
      "Learner consistently surpasses expected learning outcomes",
      ["Shows exceptional mastery",
       "Applies knowledge in novel situations",
       "Demonstrates creativity and critical thinking",
       "Ready for advanced challenges"],
      "Enrichment and advanced exploration")
  ]

  const MathematicsCompetency: SubjectCompetency := SubjectCompetency(
    "Mathematics",
    ["Number Operations",
     "Algebra & Patterns",
     "Geometry & Measurement",
     "Data & Probability",
     "Problem Solving"],
    [CompetencyLevel(1, "Foundation", "Building basic numeracy",
       ["Counting and basic operations with support",
        "Simple pattern recognition",
        "Basic shape identification",
        "Reading simple graphs with help"],
       "Concrete manipulatives, visual aids, basic operations"),
     CompetencyLevel(2, "Developing", "Growing mathematical fluency",
       ["Performs calculations with occasional errors",
        "Solves simple word problems",
        "Uses basic geometric properties",
        "Interprets data with guidance"],
       "Practice, error correction, strategy development"),
     CompetencyLevel(3, "Proficient", "Solid mathematical competence",
       ["Accurate calculations independently",
        "Applies multiple strategies to problems",
        "Uses geometric reasoning",
        "Analyzes and interprets data"],
       "Application, connections, deeper understanding"),
     CompetencyLevel(4, "Advanced", "Exceptional mathematical thinking",
       ["Solves complex multi-step problems",
        "Creates own problem-solving strategies",
        "Makes mathematical generalizations",
        "Explores beyond curriculum"],
       "Challenge problems, competitions, exploration")])

  const IntegratedScienceCompetency: SubjectCompetency := SubjectCompetency(
    "Integrated Science",
    ["Scientific Inquiry",
     "Life Science",
     "Physical Science",
     "Earth & Space",
     "Scientific Reasoning"],
    [CompetencyLevel(1, "Exploring", "Beginning scientific understanding",
       ["Basic observations with prompting",
        "Simple classification tasks",
        "Follows procedures with help",
        "Recalls basic facts"],
       "Hands-on exploration, vocabulary, basic concepts"),
     CompetencyLevel(2, "Investigating", "Growing scientific skills",
       ["Makes observations independently",
        "Follows scientific method with guidance",
        "Explains simple phenomena",
        "Records findings"],
       "Experimentation, inquiry skills, connections"),
     CompetencyLevel(3, "Analyzing", "Competent scientific thinking",
       ["Conducts investigations independently",
        "Explains cause and effect",
        "Uses evidence to support conclusions",
        "Applies scientific concepts"],
       "Analysis, critical thinking, application"),
     CompetencyLevel(4, "Innovating", "Advanced scientific understanding",
       ["Designs own investigations",
        "Makes predictions and tests hypotheses",
        "Connects across scientific domains",
        "Thinks like a scientist"],
       "Independent research, competitions, advanced topics")])

  const EnglishCompetency: SubjectCompetency := SubjectCompetency(
    "English",
    ["Reading Comprehension",
     "Writing Skills",
     "Grammar & Mechanics",
     "Vocabulary",
     "Communication"],
    [CompetencyLevel(1, "Emergent", "Beginning language skills",
       ["Reads simple texts with support",
        "Writes basic sentences",
        "Limited vocabulary",
        "Needs help with grammar"],
       "Phonics, sight words, basic grammar, simple writing"),
     CompetencyLevel(2, "Developing", "Growing language competence",
       ["Reads grade-level texts with some help",
        "Writes simple paragraphs",
        "Expanding vocabulary",
        "Inconsistent grammar use"],
       "Fluency, paragraph structure, grammar practice"),
     CompetencyLevel(3, "Fluent", "Competent language use",
       ["Reads and comprehends independently",
        "Writes organized multi-paragraph texts",
        "Good vocabulary range",
        "Correct grammar usually"],
       "Literary analysis, varied writing, expression"),
     CompetencyLevel(4, "Advanced", "Exceptional language mastery",
       ["Analyzes complex texts",
        "Writes with sophistication and style",
        "Rich vocabulary",
        "Masterful grammar and mechanics"],
       "Creative writing, literary criticism, advanced texts")])

  /** SUBJECT_COMPETENCIES, keyed by subject key in declaration order. */
  const SubjectCompetencies: seq<(string, SubjectCompetency)> := [
    ("mathematics", MathematicsCompetency),
    ("integrated_science", IntegratedScienceCompetency),
    ("english", EnglishCompetency)
  ]

  /** What every level table promises: levels 1, 2, 3, 4 in this order,
      each described by four indicators. */
  ghost predicate ValidLevels(levels: seq<CompetencyLevel>)
  {
    |levels| == 4 &&
    forall i :: 0 <= i < 4 ==> levels[i].level == i + 1 && |levels[i].indicators| == 4
  }

  ghost predicate ValidFrameworks(frameworks: seq<(string, SubjectCompetency)>)
  {
    forall i :: 0 <= i < |frameworks| ==> ValidLevels(frameworks[i].1.levelDescriptions)
  }

  lemma {:induction false} CbcLevelsValid()
    ensures ValidLevels(CbcLevels)
  {
  }

  lemma {:induction false} MathematicsValid()
    ensures ValidLevels(MathematicsCompetency.levelDescriptions)
    ensures |MathematicsCompetency.skillAreas| == 5
  {
  }

  lemma {:induction false} IntegratedScienceValid()
    ensures ValidLevels(IntegratedScienceCompetency.levelDescriptions)
    ensures |IntegratedScienceCompetency.skillAreas| == 5
  {
  }

  lemma {:induction false} EnglishValid()
    ensures ValidLevels(EnglishCompetency.levelDescriptions)
    ensures |EnglishCompetency.skillAreas| == 5
  {
  }

  /** Every subject framework satisfies the level-table invariant, and the
      subject keys are distinct. */
  lemma {:induction false} SubjectCompetenciesValid()
    ensures ValidFrameworks(SubjectCompetencies)
    ensures UniqueKeys(SubjectCompetencies)
    ensures |SubjectCompetencies| == 3
  {
    MathematicsValid();
    IntegratedScienceValid();
    EnglishValid();
  }

  // ---------------------------------------------------------------------
  // getCompetencyDescription

  /** `levels.find(l => l.level === level)` */
  function FindLevel(levels: seq<CompetencyLevel>, level: int): Option<CompetencyLevel>
  {
    if levels == [] then None
    else if levels[0].level == level then Some(levels[0])
    else FindLevel(levels[1..], level)
  }

  lemma {:induction false} FindLevelAt(levels: seq<CompetencyLevel>, i: int)
    requires 0 <= i < |levels|
    requires forall j :: 0 <= j < i ==> levels[j].level != levels[i].level
    ensures FindLevel(levels, levels[i].level) == Some(levels[i])
  {
    if i > 0 {
      assert levels[1..][i - 1] == levels[i];
      assert levels[0].level != levels[i].level;
      forall j | 0 <= j < i - 1
        ensures levels[1..][j].level != levels[1..][i - 1].level
      {
        assert levels[1..][j] == levels[j + 1];
      }
      FindLevelAt(levels[1..], i - 1);
    }
  }

  lemma {:induction false} FindLevelMissing(levels: seq<CompetencyLevel>, level: int)
    requires forall j :: 0 <= j < |levels| ==> levels[j].level != level
    ensures FindLevel(levels, level) == None
  {
    if levels != [] {
      forall j | 0 <= j < |levels[1..]|
        ensures levels[1..][j].level != level
      {
        assert levels[1..][j] == levels[j + 1];
      }
      FindLevelMissing(levels[1..], level);
    }
  }

  /** In a valid table, a level is found exactly when it is 1 to 4, and
      it is then the entry at position level - 1. */
  lemma {:induction false} FindValidLevel(levels: seq<CompetencyLevel>, level: int)
    requires ValidLevels(levels)
    ensures FindLevel(levels, level).Some? <==> 1 <= level <= 4
    ensures 1 <= level <= 4 ==> FindLevel(levels, level) == Some(levels[level - 1])
  {
    if 1 <= level <= 4 {
      FindLevelAt(levels, level - 1);
    } else {
      FindLevelMissing(levels, level);
    }
  }

  /** getCompetencyDescription over a given subject table and generic table. */
  function DescriptionIn(frameworks: seq<(string, SubjectCompetency)>, generic: seq<CompetencyLevel>,
                         subject: string, level: int): Option<CompetencyLevel>
  {
    match Lookup(frameworks, subject)
    case None => FindLevel(generic, level)
    case Some(competency) => FindLevel(competency.levelDescriptions, level)
  }

  /** getCompetencyDescription: the subject's own description of a level,
      or the generic CBC level for a subject without a framework. */
  function GetCompetencyDescription(subject: string, level: int): Option<CompetencyLevel>
  {
    DescriptionIn(SubjectCompetencies, CbcLevels, subject, level)
  }

  /** With valid tables, a description exists exactly for the levels 1 to
      4; it is the level-th entry of the subject's table, or of the
      generic table when the subject has no framework. */
  lemma {:induction false} DescriptionInValid(frameworks: seq<(string, SubjectCompetency)>,
                                               generic: seq<CompetencyLevel>, subject: string, level: int)
    requires ValidFrameworks(frameworks) && ValidLevels(generic)
    ensures Lookup(frameworks, subject).Some? ==> ValidLevels(Lookup(frameworks, subject).value.levelDescriptions)
    ensures DescriptionIn(frameworks, generic, subject, level).Some? <==> 1 <= level <= 4
    ensures Lookup(frameworks, subject).None? && 1 <= level <= 4 ==>
              DescriptionIn(frameworks, generic, subject, level) == Some(generic[level - 1])
    ensures Lookup(frameworks, subject).Some? && 1 <= level <= 4 ==>
              DescriptionIn(frameworks, generic, subject, level) ==
              Some(Lookup(frameworks, subject).value.levelDescriptions[level - 1])
  {
    LookupFirst(frameworks, subject);
    match Lookup(frameworks, subject)
    case None =>
      FindValidLevel(generic, level);
    case Some(competency) =>
      var i :| 0 <= i < |frameworks| && frameworks[i] == (subject, competency) &&
               forall j :: 0 <= j < i ==> frameworks[j].0 != subject;
      assert ValidLevels(frameworks[i].1.levelDescriptions);
      FindValidLevel(competency.levelDescriptions, level);
  }

  /** getCompetencyDescription returns a description of the requested level
      exactly when that level is 1 to 4; for a subject outside the
      framework it is the generic CBC level. */
  lemma {:induction false} CompetencyDescriptionLevels(subject: string, level: int)
    ensures GetCompetencyDescription(subject, level).Some? <==> 1 <= level <= 4
    ensures GetCompetencyDescription(subject, level).Some? ==>
              GetCompetencyDescription(subject, level).value.level == level
    ensures Lookup(SubjectCompetencies, subject).None? && 1 <= level <= 4 ==>
              GetCompetencyDescription(subject, level) == Some(CbcLevels[level - 1])
  {
    SubjectCompetenciesValid();
    CbcLevelsValid();
    DescriptionInValid(SubjectCompetencies, CbcLevels, subject, level);
    if 1 <= level <= 4 && Lookup(SubjectCompetencies, subject).Some? {
      LookupFirst(SubjectCompetencies, subject);
      var c := Lookup(SubjectCompetencies, subject).value;
      var i :| 0 <= i < |SubjectCompetencies| && SubjectCompetencies[i] == (subject, c) &&
               forall j :: 0 <= j < i ==> SubjectCompetencies[j].0 != subject;
      assert ValidLevels(SubjectCompetencies[i].1.levelDescriptions);
    }
  }

  // ---------------------------------------------------------------------
  // analyzeSkillGaps

  const NoFrameworkGaps: SkillGaps := SkillGaps(
    ["Subject-specific framework not available"],
    ["Focus on general skill development for this subject"],
    "Varies by individual progress")

  const UnknownLevelGaps: SkillGaps := SkillGaps([], [], "Unknown")

  const FocusPrefix: string := "Focus on: "

  const DedicatedPractice: string := " weeks with dedicated practice"

  /** The target's indicators numbered from 1: `${i + 1}. ${indicator}`. */
  function NumberedGaps(indicators: seq<string>): seq<string>
  {
    seq(|indicators|, i requires 0 <= i < |indicators| => NatToString(i + 1) + ". " + indicators[i])
  }

  function NextSteps(learningFocus: string): seq<string>
  {
    [FocusPrefix + learningFocus,
     "Work through targeted practice in weak areas",
     "Seek feedback from teacher regularly",
     "Track progress with mini-assessments"]
  }

  function TimeEstimate(levelGap: int): string
  {
    if levelGap == 1 then "4-6 weeks with consistent effort"
    else IntToString(levelGap * 6) + "-" + IntToString(levelGap * 8) + DedicatedPractice
  }

  /** analyzeSkillGaps over a given subject table. */
  function SkillGapsIn(frameworks: seq<(string, SubjectCompetency)>, subject: string,
                       currentLevel: int, targetLevel: int): SkillGaps
  {
    match Lookup(frameworks, subject)
    case None => NoFrameworkGaps
    case Some(competency) =>
      var currentDesc := FindLevel(competency.levelDescriptions, currentLevel);
      var targetDesc := FindLevel(competency.levelDescriptions, targetLevel);
      if currentDesc.None? || targetDesc.None? then UnknownLevelGaps
      else
        SkillGaps(NumberedGaps(targetDesc.value.indicators),
                  NextSteps(targetDesc.value.learningFocus),
                  TimeEstimate(targetLevel - currentLevel))
  }

  /** analyzeSkillGaps; the target level is 3 when the caller leaves it out. */
  function AnalyzeSkillGaps(subject: string, currentLevel: int, targetLevel: int := 3): SkillGaps
  {
    SkillGapsIn(SubjectCompetencies, subject, currentLevel, targetLevel)
  }

  // ---------------------------------------------------------------------
  // Reading the texts back.

  /** The longest prefix of decimal digits. */
  function LeadingDigits(s: string): (d: string)
    ensures |d| <= |s| && d == s[..|d|]
    ensures forall i :: 0 <= i < |d| ==> IsDigit(d[i])
    ensures |d| == |s| || !IsDigit(s[|d|])
  {
    if s == [] || !IsDigit(s[0]) then [] else [s[0]] + LeadingDigits(s[1..])
  }

  lemma {:induction false} LeadingDigitsOf(digits: string, rest: string)
    requires forall i :: 0 <= i < |digits| ==> IsDigit(digits[i])
    requires rest == [] || !IsDigit(rest[0])
    ensures LeadingDigits(digits + rest) == digits
  {
    if digits != [] {
      assert (digits + rest)[1..] == digits[1..] + rest;
      LeadingDigitsOf(digits[1..], rest);
    } else {
      assert digits + rest == rest;
    }
  }

  /** Each numbered gap reads back as its position from 1 followed by the
      indicator it numbers. */
  lemma {:induction false} NumberedGapsReadBack(indicators: seq<string>, i: int)
    requires 0 <= i < |indicators|
    ensures |NumberedGaps(indicators)| == |indicators|
    ensures DigitsValue(LeadingDigits(NumberedGaps(indicators)[i])) == i + 1
    ensures var g := NumberedGaps(indicators)[i];
            var n := |LeadingDigits(g)|;
            n + 2 <= |g| && g[n..n + 2] == ". " && g[n + 2..] == indicators[i]
  {
    var g := NumberedGaps(indicators)[i];
    var d := NatToString(i + 1);
    assert g == d + (". " + indicators[i]);
    LeadingDigitsOf(d, ". " + indicators[i]);
    NatToStringRoundTrip(i + 1);
    assert g[|d|..] == ". " + indicators[i];
  }

  /** The integer written at the head of `s` (an optional '-' and the
      digits after it) and the text that follows it. */
  function LeadingInt(s: string): (r: (int, string))
    ensures |r.1| <= |s| && r.1 == s[|s| - |r.1|..]
    ensures r.1 == [] || !IsDigit(r.1[0])
    ensures (if |s| > 0 && s[0] == '-' then 1 else 0) <= |s| - |r.1|
    ensures var m := if |s| > 0 && s[0] == '-' then 1 else 0;
            var digits := s[m..|s| - |r.1|];
            (forall i :: 0 <= i < |digits| ==> IsDigit(digits[i])) &&
            DigitsValue(digits) == (if m == 1 then -r.0 else r.0)
  {
    if |s| > 0 && s[0] == '-' then
      var d := LeadingDigits(s[1..]);
      assert s[1..1 + |d|] == d && s[1 + |d|..] == s[1..][|d|..];
      (-(DigitsValue(d) as int), s[1 + |d|..])
    else
      var d := LeadingDigits(s);
      assert s[0..|d|] == d;
      (DigitsValue(d), s[|d|..])
  }

  /** The text of an integer, followed by text that does not start with a
      digit, reads back as that integer and that text. */
  lemma {:induction false} LeadingIntOf(i: int, tail: string)
    requires tail == [] || !IsDigit(tail[0])
    ensures LeadingInt(IntToString(i) + tail) == (i, tail)
  {
    var s := IntToString(i);
    IntToStringRoundTrip(i);
    if i < 0 {
      assert (s + tail)[1..] == s[1..] + tail;
      LeadingDigitsOf(s[1..], tail);
      assert (s + tail)[1 + |s[1..]|..] == tail;
    } else {
      assert s[0..] == s;
      LeadingDigitsOf(s, tail);
      assert (s + tail)[|s|..] == tail;
    }
  }

  /** A range "lo-hi" of two integers, followed by text that does not
      start with a digit, reads back as lo, a dash, hi and that text. */
  lemma {:induction false} RangeReadBack(lo: int, hi: int, tail: string)
    requires tail == [] || !IsDigit(tail[0])
    ensures var rest := "-" + (IntToString(hi) + tail);
            LeadingInt(IntToString(lo) + rest) == (lo, rest) &&
            LeadingInt(rest[1..]) == (hi, tail)
  {
    var rest := "-" + (IntToString(hi) + tail);
    LeadingIntOf(lo, rest);
    assert rest[1..] == IntToString(hi) + tail;
    LeadingIntOf(hi, tail);
  }

  /** Apart from a gap of exactly one level, the estimate is the range from
      six to eight weeks per level of gap, whatever the sign of the gap:
      its head reads back as 6 times the gap, then comes a dash, then 8
      times the gap, then the fixed wording. */
  lemma {:induction false} TimeEstimateReadBack(levelGap: int)
    requires levelGap != 1
    ensures LeadingInt(TimeEstimate(levelGap)).0 == levelGap * 6
    ensures var rest := LeadingInt(TimeEstimate(levelGap)).1;
            |rest| > 0 && rest[0] == '-' && LeadingInt(rest[1..]) == (levelGap * 8, DedicatedPractice)
  {
    var lo := IntToString(levelGap * 6);
    var hi := IntToString(levelGap * 8);
    var rest := "-" + (hi + DedicatedPractice);
    assert DedicatedPractice[0] == ' ';
    AppendAssoc(lo + "-", hi, DedicatedPractice);
    AppendAssoc(lo, "-", hi + DedicatedPractice);
    assert TimeEstimate(levelGap) == lo + rest;
    RangeReadBack(levelGap * 6, levelGap * 8, DedicatedPractice);
    assert LeadingInt(lo + rest) == (levelGap * 6, rest);
  }

  /** A target at or below the current level is not special-cased: a gap of
      zero gives zero weeks and a negative gap a negative estimate. */
  lemma {:induction false} TimeEstimateNotPositive(levelGap: int)
    requires levelGap <= 0
    ensures levelGap == 0 ==> TimeEstimate(levelGap) == "0-0" + DedicatedPractice
    ensures levelGap < 0 ==> TimeEstimate(levelGap)[0] == '-'
  {
    var lo := IntToString(levelGap * 6);
    var rest := "-" + IntToString(levelGap * 8) + DedicatedPractice;
    assert TimeEstimate(levelGap) == lo + rest;
    if levelGap == 0 {
      assert lo == "0";
      assert IntToString(levelGap * 8) == "0";
    } else {
      assert lo[0] == '-';
    }
  }

  /** The three outcomes of analyzeSkillGaps with valid tables: the fixed
      answer for a subject outside the framework, the empty answer when the
      current or target level is not 1 to 4, and otherwise the target
      level's indicators numbered in order, four next steps led by the
      target's learning focus, and the time estimate for the level gap. */
  lemma {:induction false} SkillGapsInCases(frameworks: seq<(string, SubjectCompetency)>, subject: string,
                                             currentLevel: int, targetLevel: int)
    requires ValidFrameworks(frameworks)
    ensures Lookup(frameworks, subject).Some? ==> ValidLevels(Lookup(frameworks, subject).value.levelDescriptions)
    ensures Lookup(frameworks, subject).None? ==>
              SkillGapsIn(frameworks, subject, currentLevel, targetLevel) == NoFrameworkGaps
    ensures Lookup(frameworks, subject).Some? ==>
              (SkillGapsIn(frameworks, subject, currentLevel, targetLevel) == UnknownLevelGaps <==>
               !(1 <= currentLevel <= 4 && 1 <= targetLevel <= 4))
    ensures Lookup(frameworks, subject).Some? && 1 <= currentLevel <= 4 && 1 <= targetLevel <= 4 ==>
              var target := Lookup(frameworks, subject).value.levelDescriptions[targetLevel - 1];
              var r := SkillGapsIn(frameworks, subject, currentLevel, targetLevel);
              target.level == targetLevel &&
              |r.gaps| == |target.indicators| == 4 &&
              (forall i :: 0 <= i < 4 ==> r.gaps[i] == NatToString(i + 1) + ". " + target.indicators[i]) &&
              |r.nextSteps| == 4 && r.nextSteps[0][..|FocusPrefix|] == FocusPrefix &&
              r.nextSteps[0][|FocusPrefix|..] == target.learningFocus &&
              r.timeEstimate == TimeEstimate(targetLevel - currentLevel)
  {
    LookupFirst(frameworks, subject);
    match Lookup(frameworks, subject)
    case None =>
    case Some(competency) =>
      var i :| 0 <= i < |frameworks| && frameworks[i] == (subject, competency) &&
               forall j :: 0 <= j < i ==> frameworks[j].0 != subject;
      assert ValidLevels(frameworks[i].1.levelDescriptions);
      FindValidLevel(competency.levelDescriptions, currentLevel);
      FindValidLevel(competency.levelDescriptions, targetLevel);
      if 1 <= currentLevel <= 4 && 1 <= targetLevel <= 4 {
        var target := competency.levelDescriptions[targetLevel - 1];
        var r := SkillGapsIn(frameworks, subject, currentLevel, targetLevel);
        assert r.nextSteps[0] == FocusPrefix + target.learningFocus;
      } else {
        assert UnknownLevelGaps.timeEstimate != NoFrameworkGaps.timeEstimate;
      }
  }

  /** The outcomes of analyzeSkillGaps itself, over the CBC tables. */
  lemma {:induction false} AnalyzeSkillGapsCases(subject: string, currentLevel: int, targetLevel: int)
    ensures Lookup(SubjectCompetencies, subject).None? ==>
              AnalyzeSkillGaps(subject, currentLevel, targetLevel) == NoFrameworkGaps
    ensures Lookup(SubjectCompetencies, subject).Some? ==>
              (AnalyzeSkillGaps(subject, currentLevel, targetLevel) == UnknownLevelGaps <==>
               !(1 <= currentLevel <= 4 && 1 <= targetLevel <= 4))
    ensures Lookup(SubjectCompetencies, subject).Some? && 1 <= currentLevel <= 4 && 1 <= targetLevel <= 4 ==>
              |AnalyzeSkillGaps(subject, currentLevel, targetLevel).gaps| == 4 &&
              |AnalyzeSkillGaps(subject, currentLevel, targetLevel).nextSteps| == 4
  {
    SubjectCompetenciesValid();
    SkillGapsInCases(SubjectCompetencies, subject, currentLevel, targetLevel);
  }
}
