/** Pathway affinity for junior-school learners (Grades 7-9): three weighted
    means of the learner's competency scores, one per senior-school pathway,
    the pathway with the highest mean, a confidence rating from the lead
    over the runner-up, the learner's strengths and development areas, and
    a templated guidance message. Models lib/pathwayCalculator.ts. */
module PathwayCalculator {
  import opened Common
  import opened Sorting

  /** Subject key to competency score (1-4), in the record's key order. */
  type ScoreMap = seq<(string, int)>

  /** Subject key to weight, in the record's key order. */
  type Weights = seq<(string, real)>

  datatype Pathway = Stem | ArtsSports | SocialSciences

  function PathwayName(p: Pathway): string
  {
    match p
    case Stem => "STEM"
    case ArtsSports => "Arts & Sports"
    case SocialSciences => "Social Sciences"
  }

  datatype Confidence = High | Medium | Low

  datatype PathwayRecommendation = PathwayRecommendation(
    stemScore: int,
    artsSportsScore: int,
    socialSciencesScore: int,
    topPathway: Pathway,
    confidence: Confidence,
    strengths: seq<string>,
    developmentAreas: seq<string>,
    guidanceMessage: string,
    calculatedAt: string)

  const StemWeights: Weights :=
    [("mathematics", 0.40), ("integrated_science", 0.35), ("pre_technical_studies", 0.25)]
  const ArtsWeights: Weights :=
    [("creative_arts_sports", 0.60), ("english", 0.20), ("kiswahili", 0.20)]
  const SocialWeights: Weights :=
    [("social_studies", 0.40), ("english", 0.30), ("kiswahili", 0.30)]

  /** `scores[subject] || 0`: a missing subject reads as 0. */
  function ScoreOf(scores: ScoreMap, subject: string): int
  {
    match Lookup(scores, subject)
    case Some(v) => v
    case None => 0
  }

  // ---------------------------------------------------------------------
  // Weighted score of one pathway

  /** What one weighted subject adds to the running total: its score as a
      percentage of the top level 4, times its weight. */
  function Contribution(scores: ScoreMap, entry: (string, real)): real
  {
    Percent(ScoreOf(scores, entry.0)) * entry.1
  }

  /** `(score / 4) * 100`: a score as a percentage of the top level 4. */
  function Percent(score: int): real
  {
    (score as real / 4.0) * 100.0
  }

  function WeightedTotal(scores: ScoreMap, weights: Weights): real
  {
    if weights == [] then 0.0
    else WeightedTotal(scores, weights[..|weights| - 1]) + Contribution(scores, weights[|weights| - 1])
  }

  function TotalWeight(weights: Weights): real
  {
    if weights == [] then 0.0
    else TotalWeight(weights[..|weights| - 1]) + weights[|weights| - 1].1
  }

  /** The weighted mean of the subjects' percentages; 0 when no weight. */
  function WeightedScore(scores: ScoreMap, weights: Weights): real
  {
    var total := TotalWeight(weights);
    if total > 0.0 then WeightedTotal(scores, weights) / total else 0.0
  }

  method CalculateWeightedScore(scores: ScoreMap, weights: Weights) returns (r: real)
    ensures r == WeightedScore(scores, weights)
  {
    var totalScore := 0.0;
    var totalWeight := 0.0;
    for i := 0 to |weights|
      invariant totalScore == WeightedTotal(scores, weights[..i])
      invariant totalWeight == TotalWeight(weights[..i])
    {
      var (subject, weight) := weights[i];
      var score := ScoreOf(scores, subject);
      assert weights[..i + 1][..i] == weights[..i];
      totalScore := totalScore + (score as real / 4.0) * 100.0 * weight;
      totalWeight := totalWeight + weight;
    }
    assert weights[..|weights|] == weights;
    r := if totalWeight > 0.0 then totalScore / totalWeight else 0.0;
  }

  ghost predicate PositiveWeights(weights: Weights)
  {
    forall i :: 0 <= i < |weights| ==> weights[i].1 > 0.0
  }

  ghost predicate ScoresWithin(scores: ScoreMap, lo: int, hi: int)
  {
    forall i :: 0 <= i < |scores| ==> lo <= scores[i].1 <= hi
  }

  /** The score read for a subject is one of the map's scores, or 0. */
  lemma {:induction false} ScoreOfWithin(scores: ScoreMap, subject: string, lo: int, hi: int)
    requires ScoresWithin(scores, lo, hi) && lo <= 0 <= hi
    ensures lo <= ScoreOf(scores, subject) <= hi
  {
    LookupFirst(scores, subject);
  }

  lemma {:induction false} TotalsBounded(scores: ScoreMap, weights: Weights)
    requires PositiveWeights(weights) && ScoresWithin(scores, 0, 4)
    ensures 0.0 <= WeightedTotal(scores, weights) <= 100.0 * TotalWeight(weights)
    ensures |weights| > 0 ==> TotalWeight(weights) > 0.0
  {
    if weights != [] {
      var init, last := weights[..|weights| - 1], weights[|weights| - 1];
      TotalsBounded(scores, init);
      ScoreOfWithin(scores, last.0, 0, 4);
      ContributionBounds(scores, last);
      assert init == [] ==> TotalWeight(init) == 0.0;
    }
  }

  /** Each pathway score is a percentage when every score is 0 to 4. */
  lemma {:induction false} WeightedScoreBounds(scores: ScoreMap, weights: Weights)
    requires PositiveWeights(weights) && ScoresWithin(scores, 0, 4)
    ensures 0.0 <= WeightedScore(scores, weights) <= 100.0
  {
    TotalsBounded(scores, weights);
    if TotalWeight(weights) > 0.0 {
      QuotientBounds(WeightedTotal(scores, weights), TotalWeight(weights), 100.0);
    }
  }

  lemma {:induction false} ContributionBounds(scores: ScoreMap, entry: (string, real))
    requires 0 <= ScoreOf(scores, entry.0) <= 4 && entry.1 > 0.0
    ensures 0.0 <= Contribution(scores, entry) <= 100.0 * entry.1
  {
    var p := Percent(ScoreOf(scores, entry.0));
    assert 0.0 <= p <= 100.0;
    assert (100.0 - p) * entry.1 >= 0.0;
  }

  lemma {:induction false} QuotientBounds(a: real, b: real, hi: real)
    requires b > 0.0 && 0.0 <= a <= hi * b
    ensures 0.0 <= a / b <= hi
  {
    var q := a / b;
    assert a == q * b;
    if q > hi {
      assert (q - hi) * b > 0.0;
    }
  }

  lemma {:induction false} QuotientExact(c: real, b: real)
    requires b > 0.0
    ensures (c * b) / b == c
  {
  }

  lemma {:induction false} TotalUniform(scores: ScoreMap, weights: Weights, v: int)
    requires forall i :: 0 <= i < |weights| ==> ScoreOf(scores, weights[i].0) == v
    ensures WeightedTotal(scores, weights) == (v as real * 25.0) * TotalWeight(weights)
  {
    if weights != [] {
      TotalUniform(scores, weights[..|weights| - 1], v);
    }
  }

  /** Every weighted subject at the top level 4 gives exactly 100. */
  lemma {:induction false} AllExceedingGivesHundred(scores: ScoreMap, weights: Weights)
    requires TotalWeight(weights) > 0.0
    requires forall i :: 0 <= i < |weights| ==> ScoreOf(scores, weights[i].0) == 4
    ensures WeightedScore(scores, weights) == 100.0
  {
    TotalUniform(scores, weights, 4);
    QuotientExact(100.0, TotalWeight(weights));
  }

  /** Every weighted subject at the lowest level 1 gives exactly 25. */
  lemma {:induction false} AllBelowGivesTwentyFive(scores: ScoreMap, weights: Weights)
    requires TotalWeight(weights) > 0.0
    requires forall i :: 0 <= i < |weights| ==> ScoreOf(scores, weights[i].0) == 1
    ensures WeightedScore(scores, weights) == 25.0
  {
    TotalUniform(scores, weights, 1);
    QuotientExact(25.0, TotalWeight(weights));
  }

  lemma {:induction false} LookupAppendOther(scores: ScoreMap, k: string, v: int, other: string)
    requires other != k
    ensures Lookup(scores + [(k, v)], other) == Lookup(scores, other)
  {
    if scores != [] {
      assert (scores + [(k, v)])[1..] == scores[1..] + [(k, v)];
      LookupAppendOther(scores[1..], k, v, other);
    } else {
      assert [(k, v)][1..] == [];
    }
  }

  lemma {:induction false} LookupAppendAbsent(scores: ScoreMap, k: string, v: int)
    requires Lookup(scores, k).None?
    ensures Lookup(scores + [(k, v)], k) == Some(v)
  {
    if scores != [] {
      assert (scores + [(k, v)])[1..] == scores[1..] + [(k, v)];
      LookupAppendAbsent(scores[1..], k, v);
    }
  }

  /** The total weight the table gives to `subject`. */
  function WeightFor(weights: Weights, subject: string): real
  {
    if weights == [] then 0.0
    else WeightFor(weights[..|weights| - 1], subject)
         + (if weights[|weights| - 1].0 == subject then weights[|weights| - 1].1 else 0.0)
  }

  /** `a` and `b` give every subject other than `k` the same score. */
  ghost predicate AgreeExcept(a: ScoreMap, b: ScoreMap, k: string)
  {
    forall x :: x != k ==> ScoreOf(a, x) == ScoreOf(b, x)
  }

  /** Changing one subject's score moves the weighted total by the change in
      its percentage times the weight the table gives that subject. */
  lemma {:induction false} TotalAfterChange(a: ScoreMap, b: ScoreMap, weights: Weights, k: string)
    requires AgreeExcept(a, b, k)
    ensures WeightedTotal(b, weights) ==
            WeightedTotal(a, weights) + (Percent(ScoreOf(b, k)) - Percent(ScoreOf(a, k))) * WeightFor(weights, k)
  {
    var d := Percent(ScoreOf(b, k)) - Percent(ScoreOf(a, k));
    if weights == [] {
      assert d * WeightFor(weights, k) == d * 0.0 == 0.0;
    } else {
      var init, last := weights[..|weights| - 1], weights[|weights| - 1];
      TotalAfterChange(a, b, init, k);
      var w := if last.0 == k then last.1 else 0.0;
      ContributionAfterChange(a, b, k, last);
      assert WeightFor(weights, k) == WeightFor(init, k) + w;
      Distribute(d, WeightFor(init, k), w);
    }
  }

  lemma {:induction false} ContributionAfterChange(a: ScoreMap, b: ScoreMap, k: string, entry: (string, real))
    requires AgreeExcept(a, b, k)
    ensures Contribution(b, entry) ==
            Contribution(a, entry) + (Percent(ScoreOf(b, k)) - Percent(ScoreOf(a, k))) * (if entry.0 == k then entry.1 else 0.0)
  {
    var pa, pb := Percent(ScoreOf(a, k)), Percent(ScoreOf(b, k));
    if entry.0 == k {
      assert (pb - pa) * entry.1 == pb * entry.1 - pa * entry.1;
    } else {
      assert ScoreOf(a, entry.0) == ScoreOf(b, entry.0);
    }
  }

  lemma {:induction false} Distribute(c: real, a: real, b: real)
    ensures c * (a + b) == c * a + c * b
  {
  }

  lemma {:induction false} DivideSum(a: real, d: real, t: real)
    requires t > 0.0
    ensures (a + d) / t == a / t + d / t
  {
    var q, r := a / t, d / t;
    assert a == q * t && d == r * t;
    assert a + d == (q + r) * t;
  }

  /** Appending a new subject changes the score of that subject only. */
  lemma {:induction false} AppendAgrees(scores: ScoreMap, k: string, v: int)
    requires Lookup(scores, k).None?
    ensures AgreeExcept(scores, scores + [(k, v)], k)
    ensures ScoreOf(scores, k) == 0 && ScoreOf(scores + [(k, v)], k) == v
    ensures Percent(ScoreOf(scores + [(k, v)], k)) - Percent(ScoreOf(scores, k)) == Percent(v)
  {
    forall x | x != k ensures ScoreOf(scores, x) == ScoreOf(scores + [(k, v)], x) {
      LookupAppendOther(scores, k, v, x);
    }
    LookupAppendAbsent(scores, k, v);
  }

  /** A subject that has not been assessed counts as a score of 0 rather than
      being left out of the mean: assessing it at level v raises the pathway
      score by exactly its percentage times its weight over the unchanged
      total weight. */
  lemma {:induction false} MissingSubjectCountsAsZero(scores: ScoreMap, weights: Weights, k: string, v: int)
    requires Lookup(scores, k).None?
    requires TotalWeight(weights) > 0.0
    ensures WeightedScore(scores + [(k, v)], weights) ==
            WeightedScore(scores, weights) + Percent(v) * WeightFor(weights, k) / TotalWeight(weights)
  {
    TotalAfterAppend(scores, weights, k, v);
    ScoreShift(scores, scores + [(k, v)], weights, Percent(v) * WeightFor(weights, k));
  }

  /** Assessing a missing subject at level v adds its percentage times its
      weight to the weighted total. */
  lemma {:induction false} TotalAfterAppend(scores: ScoreMap, weights: Weights, k: string, v: int)
    requires Lookup(scores, k).None?
    ensures WeightedTotal(scores + [(k, v)], weights) == WeightedTotal(scores, weights) + Percent(v) * WeightFor(weights, k)
  {
    AppendAgrees(scores, k, v);
    TotalAfterChange(scores, scores + [(k, v)], weights, k);
  }

  /** Adding x to the weighted total adds x over the total weight to the
      weighted score. */
  lemma {:induction false} ScoreShift(a: ScoreMap, b: ScoreMap, weights: Weights, x: real)
    requires TotalWeight(weights) > 0.0
    requires WeightedTotal(b, weights) == WeightedTotal(a, weights) + x
    ensures WeightedScore(b, weights) == WeightedScore(a, weights) + x / TotalWeight(weights)
  {
    DivideSum(WeightedTotal(a, weights), x, TotalWeight(weights));
  }

  // ---------------------------------------------------------------------
  // Ranking of the three pathways and the confidence rating

  datatype Ranked = Ranked(pathway: Pathway, score: real)

  /** Sort key for `(a, b) => b.score - a.score`. */
  function Descending(r: Ranked): real { -r.score }

  function Candidates(scores: ScoreMap): seq<Ranked>
  {
    [Ranked(Stem, WeightedScore(scores, StemWeights)),
     Ranked(ArtsSports, WeightedScore(scores, ArtsWeights)),
     Ranked(SocialSciences, WeightedScore(scores, SocialWeights))]
  }

  function Ranking(scores: ScoreMap): (r: seq<Ranked>)
    ensures |r| == 3
  {
    SortByKey(Candidates(scores), Descending)
  }

  function Max3(x: real, y: real, z: real): real
  {
    if x >= y && x >= z then x else if y >= z then y else z
  }

  /** The middle one of three values. */
  function Median3(x: real, y: real, z: real): real
  {
    if (y <= x <= z) || (z <= x <= y) then x
    else if (x <= y <= z) || (z <= y <= x) then y
    else z
  }

  /** The stable descending sort of the three candidates puts the highest
      score first and the middle score second. On a tie the earlier pathway
      in the order STEM, Arts & Sports, Social Sciences comes first. */
  lemma {:induction false} RankingOrder(scores: ScoreMap)
    ensures var s, a, o := WeightedScore(scores, StemWeights), WeightedScore(scores, ArtsWeights),
                          WeightedScore(scores, SocialWeights);
            var r := Ranking(scores);
            && r[0].score == Max3(s, a, o)
            && r[1].score == Median3(s, a, o)
            && (r[0].pathway == Stem <==> s >= a && s >= o)
            && (r[0].pathway == ArtsSports <==> a > s && a >= o)
            && (r[0].pathway == SocialSciences <==> o > s && o > a)
  {
    RankThree(WeightedScore(scores, StemWeights), WeightedScore(scores, ArtsWeights),
              WeightedScore(scores, SocialWeights));
  }

  lemma {:induction false} RankThree(s: real, a: real, o: real)
    ensures var r := SortByKey([Ranked(Stem, s), Ranked(ArtsSports, a), Ranked(SocialSciences, o)], Descending);
            && r[0].score == Max3(s, a, o)
            && r[1].score == Median3(s, a, o)
            && (r[0].pathway == Stem <==> s >= a && s >= o)
            && (r[0].pathway == ArtsSports <==> a > s && a >= o)
            && (r[0].pathway == SocialSciences <==> o > s && o > a)
  {
    var c := [Ranked(Stem, s), Ranked(ArtsSports, a), Ranked(SocialSciences, o)];
    assert c[..2][..1] == c[..1] && c[..1][..0] == [] && c[..2] == [c[0], c[1]];
    assert SortByKey(c[..1], Descending) == [c[0]];
    var two := SortByKey(c[..2], Descending);
    assert two == InsertByKey([c[0]], c[1], Descending);
    var x, y := if s >= a then c[0] else c[1], if s >= a then c[1] else c[0];
    assert two == [x, y];
    assert [x, y][..1] == [x];
    var r := SortByKey(c, Descending);
    assert r == InsertByKey([x, y], c[2], Descending);
    if -y.score <= -o {
      assert r == [x, y, c[2]];
    } else if -x.score <= -o {
      assert r == [x, c[2], y];
    } else {
      assert [x][..0] == [];
      assert InsertByKey([x], c[2], Descending) == [c[2], x];
      assert r == [c[2], x, y];
    }
  }

  function Classify(gap: real): (c: Confidence)
    ensures c == High <==> gap > 20.0
    ensures c == Medium <==> 10.0 < gap <= 20.0
    ensures c == Low <==> gap <= 10.0
  {
    if gap > 20.0 then High else if gap > 10.0 then Medium else Low
  }

  function ConfidenceRank(c: Confidence): nat
  {
    match c
    case Low => 0
    case Medium => 1
    case High => 2
  }

  /** A larger lead never lowers the confidence. */
  lemma {:induction false} ConfidenceMonotone(gap1: real, gap2: real)
    requires gap1 <= gap2
    ensures ConfidenceRank(Classify(gap1)) <= ConfidenceRank(Classify(gap2))
  {
  }

  // ---------------------------------------------------------------------
  // Strengths and development areas

  predicate IsStrength(score: int) { score >= 3 }
  predicate IsDevelopmentArea(score: int) { score <= 2 }

  /** `Object.entries(scores).filter(([_, s]) => keep(s)).map(([k, _]) => k)` */
  function KeysWhere(scores: ScoreMap, keep: int -> bool): (keys: seq<string>)
    ensures forall k :: k in keys <==> exists i :: 0 <= i < |scores| && scores[i].0 == k && keep(scores[i].1)
    ensures |keys| <= |scores|
    ensures (forall i :: 0 <= i < |scores| ==> keep(scores[i].1)) ==>
              forall i :: 0 <= i < |scores| ==> |keys| == |scores| && keys[i] == scores[i].0
  {
    if scores == [] then []
    else
      var rest := KeysWhere(scores[1..], keep);
      assert forall i :: 0 < i < |scores| ==> scores[i] == scores[1..][i - 1];
      if keep(scores[0].1) then [scores[0].0] + rest else rest
  }

  function ByScoreDescending(scores: ScoreMap): string -> real
  {
    k => -(ScoreOf(scores, k) as real)
  }

  function ByScoreAscending(scores: ScoreMap): string -> real
  {
    k => ScoreOf(scores, k) as real
  }

  function Strengths(scores: ScoreMap): seq<string>
  {
    SortByKey(KeysWhere(scores, IsStrength), ByScoreDescending(scores))
  }

  function DevelopmentAreas(scores: ScoreMap): seq<string>
  {
    SortByKey(KeysWhere(scores, IsDevelopmentArea), ByScoreAscending(scores))
  }

  /** `strengths` holds exactly the subjects scored 3 or above, highest
      score first, as a reordering of their keys in map order. */
  lemma {:induction false} StrengthsAreHighScores(scores: ScoreMap)
    ensures forall k :: k in Strengths(scores) <==>
              exists i :: 0 <= i < |scores| && scores[i].0 == k && scores[i].1 >= 3
    ensures forall i, j :: 0 <= i < j < |Strengths(scores)| ==>
              ScoreOf(scores, Strengths(scores)[i]) >= ScoreOf(scores, Strengths(scores)[j])
    ensures multiset(Strengths(scores)) == multiset(KeysWhere(scores, IsStrength))
  {
    var keys := KeysWhere(scores, IsStrength);
    SortPermutation(keys, ByScoreDescending(scores));
    SortSorted(keys, ByScoreDescending(scores));
    forall k ensures k in Strengths(scores) <==> k in keys {
      assert k in Strengths(scores) <==> k in multiset(Strengths(scores));
    }
  }

  /** `development_areas` holds exactly the subjects scored 2 or below,
      lowest score first, as a reordering of their keys in map order. */
  lemma {:induction false} DevelopmentAreasAreLowScores(scores: ScoreMap)
    ensures forall k :: k in DevelopmentAreas(scores) <==>
              exists i :: 0 <= i < |scores| && scores[i].0 == k && scores[i].1 <= 2
    ensures forall i, j :: 0 <= i < j < |DevelopmentAreas(scores)| ==>
              ScoreOf(scores, DevelopmentAreas(scores)[i]) <= ScoreOf(scores, DevelopmentAreas(scores)[j])
    ensures multiset(DevelopmentAreas(scores)) == multiset(KeysWhere(scores, IsDevelopmentArea))
  {
    var keys := KeysWhere(scores, IsDevelopmentArea);
    SortPermutation(keys, ByScoreAscending(scores));
    SortSorted(keys, ByScoreAscending(scores));
    forall k ensures k in DevelopmentAreas(scores) <==> k in keys {
      assert k in DevelopmentAreas(scores) <==> k in multiset(DevelopmentAreas(scores));
    }
  }

  /** With the unique keys of a record, no subject is both a strength and a
      development area. */
  lemma {:induction false} StrengthsAndAreasDisjoint(scores: ScoreMap)
    requires UniqueKeys(scores)
    ensures forall k :: k in Strengths(scores) ==> k !in DevelopmentAreas(scores)
  {
    StrengthsAreHighScores(scores);
    DevelopmentAreasAreLowScores(scores);
    forall k | k in Strengths(scores) ensures k !in DevelopmentAreas(scores) {
      var i :| 0 <= i < |scores| && scores[i].0 == k && scores[i].1 >= 3;
      assert forall j :: 0 <= j < |scores| && scores[j].0 == k ==> j == i;
    }
  }

  // ---------------------------------------------------------------------
  // Subject names

  /** Upper-casing of ASCII letters; every other character is kept. */
  function ToUpper(c: char): (u: char)
    ensures 'a' <= c <= 'z' ==> u as int == c as int - 32
    ensures !('a' <= c <= 'z') ==> u == c
  {
    if 'a' <= c <= 'z' then (c as int - 32) as char else c
  }

  const SpecialNames: seq<(string, string)> := [
    ("creative_arts_sports", "Creative Arts and Sports"),
    ("pre_technical_studies", "Pre-Technical Studies"),
    ("integrated_science", "Integrated Science"),
    ("agriculture_nutrition", "Agriculture and Nutrition"),
    ("christian_religious_education", "Christian Religious Education"),
    ("islamic_religious_education", "Islamic Religious Education"),
    ("social_studies", "Social Studies"),
    ("kiswahili_ksl", "Kiswahili/KSL"),
    ("community_service_learning", "Community Service Learning"),
    ("core_mathematics", "Core Mathematics"),
    ("essential_mathematics", "Essential Mathematics"),
    ("physical_education", "Physical Education"),
    ("ict", "ICT"),
    ("christian_education", "Christian Religious Education"),
    ("islamic_education", "Islamic Religious Education"),
    ("hindu_education", "Hindu Religious Education")
  ]

  /** `s.split(sep)`: at least one part, separators removed. */
  function Split(s: string, sep: char): (parts: seq<string>)
    ensures |parts| >= 1
  {
    if s == [] then [[]]
    else
      var rest := Split(s[1..], sep);
      if s[0] == sep then [[]] + rest else [[s[0]] + rest[0]] + rest[1..]
  }

  /** `w.charAt(0).toUpperCase() + w.slice(1)` */
  function Capitalize(w: string): string
  {
    if w == [] then [] else [ToUpper(w[0])] + w[1..]
  }

  function CapitalizeAll(words: seq<string>): (r: seq<string>)
    ensures |r| == |words|
  {
    if words == [] then [] else [Capitalize(words[0])] + CapitalizeAll(words[1..])
  }

  /** `words.join(sep)` */
  function Join(words: seq<string>, sep: char): string
  {
    if words == [] then []
    else if |words| == 1 then words[0]
    else words[0] + [sep] + Join(words[1..], sep)
  }

  function TitleCase(key: string): string
  {
    Join(CapitalizeAll(Split(key, '_')), ' ')
  }

  function FormatSubjectName(key: string): string
  {
    match Lookup(SpecialNames, key)
    case Some(name) => name
    case None => TitleCase(key)
  }

  /** Character-by-character reading of TitleCase: each `_` becomes a space
      and the character at the start of a word is upper-cased. */
  function TitleCaseByChar(key: string, atWordStart: bool): (r: string)
    ensures |r| == |key|
  {
    if key == [] then []
    else if key[0] == '_' then [' '] + TitleCaseByChar(key[1..], true)
    else [if atWordStart then ToUpper(key[0]) else key[0]] + TitleCaseByChar(key[1..], false)
  }

  lemma {:induction false} JoinFirstChar(c: char, w: string, rest: seq<string>)
    ensures Join([[c] + w] + rest, ' ') == [c] + Join([w] + rest, ' ')
  {
    if rest != [] {
      assert ([[c] + w] + rest)[1..] == rest;
      assert ([w] + rest)[1..] == rest;
    }
  }

  lemma {:induction false} TitleCaseIsByChar(key: string)
    ensures TitleCase(key) == TitleCaseByChar(key, true)
    ensures Join([Split(key, '_')[0]] + CapitalizeAll(Split(key, '_')[1..]), ' ') == TitleCaseByChar(key, false)
  {
    if key != [] {
      var rest := Split(key[1..], '_');
      TitleCaseIsByChar(key[1..]);
      var parts := Split(key, '_');
      if key[0] == '_' {
        assert parts == [[]] + rest;
        assert CapitalizeAll(parts) == [[]] + CapitalizeAll(rest);
        assert parts[1..] == rest;
      } else {
        assert parts == [[key[0]] + rest[0]] + rest[1..];
        assert CapitalizeAll(parts) == [[ToUpper(key[0])] + rest[0]] + CapitalizeAll(rest[1..]);
        JoinFirstChar(ToUpper(key[0]), rest[0], CapitalizeAll(rest[1..]));
        JoinFirstChar(key[0], rest[0], CapitalizeAll(rest[1..]));
      }
    }
  }

  lemma {:induction false} ByCharSpaces(key: string, atWordStart: bool, i: int)
    requires 0 <= i < |key|
    ensures var r := TitleCaseByChar(key, atWordStart);
            r[i] != '_' && (r[i] == ' ' <==> key[i] == '_' || key[i] == ' ') &&
            (key[i] != '_' && !(i == 0 && atWordStart) && (i == 0 || key[i - 1] != '_') ==> r[i] == key[i]) &&
            (key[i] != '_' && (if i == 0 then atWordStart else key[i - 1] == '_') ==> r[i] == ToUpper(key[i]))
  {
    if i > 0 {
      ByCharSpaces(key[1..], key[0] == '_', i - 1);
    }
  }

  /** Title-casing keeps the length, turns every `_` into a space (so the
      output has no `_`, and its spaces are exactly the input's underscores
      and spaces), and changes only the first character of each word. */
  lemma {:induction false} TitleCaseShape(key: string)
    ensures |TitleCase(key)| == |key|
    ensures forall i :: 0 <= i < |key| ==> TitleCase(key)[i] != '_'
    ensures forall i :: 0 <= i < |key| ==> (TitleCase(key)[i] == ' ' <==> key[i] == '_' || key[i] == ' ')
    ensures forall i :: 0 < i < |key| && key[i] != '_' && key[i - 1] != '_' ==> TitleCase(key)[i] == key[i]
    ensures forall i :: 0 <= i < |key| && key[i] != '_' && (i == 0 || key[i - 1] == '_') ==> TitleCase(key)[i] == ToUpper(key[i])
  {
    TitleCaseIsByChar(key);
    forall i | 0 <= i < |key|
      ensures TitleCase(key)[i] != '_'
      ensures TitleCase(key)[i] == ' ' <==> key[i] == '_' || key[i] == ' '
      ensures i > 0 && key[i] != '_' && key[i - 1] != '_' ==> TitleCase(key)[i] == key[i]
      ensures key[i] != '_' && (i == 0 || key[i - 1] == '_') ==> TitleCase(key)[i] == ToUpper(key[i])
    {
      ByCharSpaces(key, true, i);
    }
  }

  /** Keys with a special name get it. Any other key keeps its length; the
      name has no `_` left, has a space exactly where the key had `_` or a
      space, upper-cases the first character of each word and leaves every
      other character as the key had it. */
  lemma {:induction false} FormatSubjectNameCases(key: string)
    ensures Lookup(SpecialNames, key).Some? ==> FormatSubjectName(key) == Lookup(SpecialNames, key).value
    ensures Lookup(SpecialNames, key).None? ==> |FormatSubjectName(key)| == |key|
    ensures Lookup(SpecialNames, key).None? ==>
      forall i :: 0 <= i < |key| ==> FormatSubjectName(key)[i] != '_'
    ensures Lookup(SpecialNames, key).None? ==>
      forall i :: 0 <= i < |key| ==> (FormatSubjectName(key)[i] == ' ' <==> key[i] == '_' || key[i] == ' ')
    ensures Lookup(SpecialNames, key).None? ==>
      forall i :: 0 <= i < |key| && key[i] != '_' && (i == 0 || key[i - 1] == '_') ==> FormatSubjectName(key)[i] == ToUpper(key[i])
    ensures Lookup(SpecialNames, key).None? ==>
      forall i :: 0 < i < |key| && key[i] != '_' && key[i - 1] != '_' ==> FormatSubjectName(key)[i] == key[i]
  {
    if Lookup(SpecialNames, key).None? {
      TitleCaseShape(key);
    }
  }

  // ---------------------------------------------------------------------
  // Guidance message

  function Opening(p: Pathway, score: real, c: Confidence): string
  {
    var pct := IntToString(Round(score));
    match p
    case Stem =>
      (match c
       case High => "🌟 Exceptional STEM potential! Your child demonstrates outstanding analytical and technical abilities with a " + pct + "% pathway match."
       case Medium => "✅ Good STEM aptitude showing! Your child has solid foundations in science and mathematics with a " + pct + "% pathway match."
       case Low => "📊 Some STEM capability present. Your child shows potential in technical subjects with a " + pct + "% pathway match.")
    case ArtsSports =>
      (match c
       case High => "🎨 Outstanding creative and physical talents! Your child excels in artistic expression and sports with a " + pct + "% pathway match."
       case Medium => "✨ Good creative abilities emerging! Your child demonstrates solid artistic and athletic potential with a " + pct + "% pathway match."
       case Low => "🎭 Some creative potential showing. Your child has foundational arts and sports abilities with a " + pct + "% pathway match.")
    case SocialSciences =>
      (match c
       case High => "📚 Excellent humanities and communication skills! Your child shines in languages and social studies with a " + pct + "% pathway match."
       case Medium => "📖 Good humanities aptitude! Your child shows strong language and social science abilities with a " + pct + "% pathway match."
       case Low => "📝 Some social sciences capability. Your child has developing humanities skills with a " + pct + "% pathway match.")
  }

  const RecommendationsHeader: string := "\n\n💡 Recommendations:\n"
  const CompetitionsLine: string := "• Enroll in science competitions" + " (Kenya Science & Engineering Fair)\n"
  const FoundationLine: string := "• Strengthen foundation in math and science\n"
  const StemCompetitionBullets: string :=
    CompetitionsLine +
    "• Join math clubs and coding programs\n" +
    "• Explore STEM career talks and mentorship\n"
  const StemFoundationBullets: string :=
    FoundationLine +
    "• Use online resources (Khan Academy, BBC Bitesize)\n" +
    "• Practice problem-solving regularly\n"
  const StemPathwayLine: string := "• Likely pathway in Grade 10: STEM"
  const ArtsBullets: string :=
    "• Join arts clubs, drama groups, or music ensembles\n" +
    "• Participate in school sports teams and tournaments\n" +
    "• Attend arts exhibitions and performances\n" +
    "• Explore creative career options early\n" +
    "• Likely pathway in Grade 10: Arts & Sports Science"
  const SocialBullets: string :=
    "• Join debate clubs and Model UN\n" +
    "• Increase reading (novels, newspapers, magazines)\n" +
    "• Practice essay writing and presentations\n" +
    "• Explore social sciences through documentaries\n" +
    "• Likely pathway in Grade 10: Social Sciences"
  const AreasHeader: string := "\n\n⚠️ Areas for Improvement:\n"
  const Disclaimer: string :=
    "\n\n📌 Important: All subjects remain essential in junior school. This guidance helps with planning, but students should continue developing skills across all learning areas. Final pathway decisions should consider the student's interests, teacher input, and long-term goals."

  /** `allScores['mathematics'] >= 3 && allScores['integrated_science'] >= 3`;
      a missing subject compares as false. */
  predicate StrongInStem(allScores: ScoreMap)
  {
    && Lookup(allScores, "mathematics").Some? && Lookup(allScores, "mathematics").value >= 3
    && Lookup(allScores, "integrated_science").Some? && Lookup(allScores, "integrated_science").value >= 3
  }

  function RecommendationsBlock(p: Pathway, allScores: ScoreMap): string
  {
    match p
    case Stem =>
      RecommendationsHeader
      + (if StrongInStem(allScores) then StemCompetitionBullets else StemFoundationBullets)
      + StemPathwayLine
    case ArtsSports => RecommendationsHeader + ArtsBullets
    case SocialSciences => RecommendationsHeader + SocialBullets
  }

  function AreaBullet(area: string): string
  {
    "• " + FormatSubjectName(area) + ": Needs more attention and practice\n"
  }

  function AreaBullets(areas: seq<string>): string
  {
    if areas == [] then "" else AreaBullets(areas[..|areas| - 1]) + AreaBullet(areas[|areas| - 1])
  }

  /** `developmentAreas.slice(0, 3)` */
  function FirstThree(areas: seq<string>): (r: seq<string>)
    ensures |r| == if |areas| <= 3 then |areas| else 3
    ensures r == areas[..|r|]
  {
    if |areas| <= 3 then areas else areas[..3]
  }

  function DevelopmentBlock(areas: seq<string>): string
  {
    if |areas| > 0 then AreasHeader + AreaBullets(FirstThree(areas)) else ""
  }

  function GuidanceMessage(p: Pathway, score: real, c: Confidence, strengths: seq<string>,
                           developmentAreas: seq<string>, allScores: ScoreMap): string
  {
    Opening(p, score, c) + RecommendationsBlock(p, allScores) + DevelopmentBlock(developmentAreas) + Disclaimer
  }

  method GenerateGuidanceMessage(p: Pathway, score: real, c: Confidence, strengths: seq<string>,
                                 developmentAreas: seq<string>, allScores: ScoreMap)
    returns (message: string)
    ensures message == GuidanceMessage(p, score, c, strengths, developmentAreas, allScores)
  {
    message := Opening(p, score, c);
    message := AppendRecommendations(message, p, allScores);
    ghost var head := message;
    message := AppendDevelopmentAreas(message, developmentAreas);
    AppendAssoc(head, DevelopmentBlock(developmentAreas), Disclaimer);
    message := message + Disclaimer;
  }

  /** The pathway's recommendation lines, appended one `+=` at a time. */
  method AppendRecommendations(m: string, p: Pathway, allScores: ScoreMap) returns (message: string)
    ensures message == m + RecommendationsBlock(p, allScores)
  {
    message := m;
    if p == Stem {
      message := message + RecommendationsHeader;
      var math := Lookup(allScores, "mathematics");
      var science := Lookup(allScores, "integrated_science");
      ghost var bullets;
      if math.Some? && math.value >= 3 && science.Some? && science.value >= 3 {
        message := message + StemCompetitionBullets;
        bullets := StemCompetitionBullets;
      } else {
        message := message + StemFoundationBullets;
        bullets := StemFoundationBullets;
      }
      message := message + StemPathwayLine;
      AppendAssoc(m, RecommendationsHeader, bullets);
      AppendAssoc(m, RecommendationsHeader + bullets, StemPathwayLine);
    } else if p == ArtsSports {
      message := message + RecommendationsHeader;
      message := message + ArtsBullets;
      AppendAssoc(m, RecommendationsHeader, ArtsBullets);
    } else {
      message := message + RecommendationsHeader;
      message := message + SocialBullets;
      AppendAssoc(m, RecommendationsHeader, SocialBullets);
    }
  }

  /** The development-area header and one line for each of the first three
      areas, appended in a loop. */
  method AppendDevelopmentAreas(m: string, developmentAreas: seq<string>) returns (message: string)
    ensures message == m + DevelopmentBlock(developmentAreas)
  {
    message := m;
    if |developmentAreas| > 0 {
      message := message + AreasHeader;
      var top := FirstThree(developmentAreas);
      for i := 0 to |top|
        invariant message == m + AreasHeader + AreaBullets(top[..i])
      {
        assert top[..i + 1][..i] == top[..i];
        AppendAssoc(m + AreasHeader, AreaBullets(top[..i]), AreaBullet(top[i]));
        message := message + AreaBullet(top[i]);
      }
      assert top[..|top|] == top;
      AppendAssoc(m, AreasHeader, AreaBullets(top));
    } else {
      assert m + DevelopmentBlock(developmentAreas) == m;
    }
  }

  /** The message always closes with the fixed disclaimer. */
  lemma {:induction false} GuidanceEndsWithDisclaimer(p: Pathway, score: real, c: Confidence, strengths: seq<string>,
                                   developmentAreas: seq<string>, allScores: ScoreMap)
    ensures var m := GuidanceMessage(p, score, c, strengths, developmentAreas, allScores);
            |m| >= |Disclaimer| && m[|m| - |Disclaimer|..] == Disclaimer
  {
  }

  /** At most three development areas are listed: areas after the third
      never change the message. */
  lemma {:induction false} GuidanceListsAtMostThreeAreas(areas: seq<string>)
    requires |areas| > 3
    ensures DevelopmentBlock(areas) == DevelopmentBlock(areas[..3])
  {
    assert FirstThree(areas) == FirstThree(areas[..3]);
  }

  /** For STEM the competition and club bullets follow the header exactly
      when both mathematics and integrated science are at level 3 or above;
      a missing subject does not count as 3 or above. */
  lemma {:induction false} StemCompetitionBulletsIff(allScores: ScoreMap)
    ensures StartsWith(RecommendationsBlock(Stem, allScores), RecommendationsHeader + StemCompetitionBullets)
            <==>
            (exists v :: Lookup(allScores, "mathematics") == Some(v) && v >= 3) &&
            (exists v :: Lookup(allScores, "integrated_science") == Some(v) && v >= 3)
  {
    if StrongInStem(allScores) {
      assert Lookup(allScores, "mathematics") == Some(Lookup(allScores, "mathematics").value);
      assert Lookup(allScores, "integrated_science") == Some(Lookup(allScores, "integrated_science").value);
    } else {
      StemBulletsDiffer();
      PrefixMismatch(RecommendationsHeader, StemCompetitionBullets, StemFoundationBullets, StemPathwayLine, 2);
    }
  }

  lemma {:induction false} StemBulletsDiffer()
    ensures 2 < |StemCompetitionBullets| && 2 < |StemFoundationBullets|
    ensures StemCompetitionBullets[2] != StemFoundationBullets[2]
  {
    assert |"• Enroll in science competitions"| == 32;
    assert CompetitionsLine[2] == 'E';
    assert |FoundationLine| == 44 && FoundationLine[2] == 'S';
  }

  /** A text that continues `h` with `b2` does not start with `h + b1` when
      `b1` and `b2` differ at some position. */
  lemma {:induction false} PrefixMismatch(h: string, b1: string, b2: string, rest: string, i: nat)
    requires i < |b1| && i < |b2| && b1[i] != b2[i]
    ensures !StartsWith(h + b2 + rest, h + b1)
  {
    var text, prefix := h + b2 + rest, h + b1;
    assert text[|h| + i] == b2[i];
    assert prefix[|h| + i] == b1[i];
    if |prefix| <= |text| {
      assert text[..|prefix|][|h| + i] == text[|h| + i];
    }
  }

  // ---------------------------------------------------------------------
  // The whole recommendation

  function Affinity(scores: ScoreMap, calculatedAt: string): PathwayRecommendation
  {
    var ranking := Ranking(scores);
    var confidence := Classify(ranking[0].score - ranking[1].score);
    var strengths := Strengths(scores);
    var developmentAreas := DevelopmentAreas(scores);
    PathwayRecommendation(
      Round(WeightedScore(scores, StemWeights)),
      Round(WeightedScore(scores, ArtsWeights)),
      Round(WeightedScore(scores, SocialWeights)),
      ranking[0].pathway,
      confidence,
      strengths,
      developmentAreas,
      GuidanceMessage(ranking[0].pathway, ranking[0].score, confidence, strengths, developmentAreas, scores),
      calculatedAt)
  }

  /** `calculated_at` is the wall-clock time of the call, passed in. */
  method CalculateJuniorPathwayAffinity(scores: ScoreMap, calculatedAt: string)
    returns (r: PathwayRecommendation)
    ensures r == Affinity(scores, calculatedAt)
  {
    var stemScore := CalculateWeightedScore(scores, StemWeights);
    var artsScore := CalculateWeightedScore(scores, ArtsWeights);
    var socialScore := CalculateWeightedScore(scores, SocialWeights);
    var pathways := new Ranked[3] [Ranked(Stem, stemScore), Ranked(ArtsSports, artsScore),
                                   Ranked(SocialSciences, socialScore)];
    assert pathways[..] == Candidates(scores);
    InsertionSort(pathways, Descending);
    var topPathway := pathways[0];
    var scoreDiff := topPathway.score - pathways[1].score;
    var confidence;
    if scoreDiff > 20.0 {
      confidence := High;
    } else if scoreDiff > 10.0 {
      confidence := Medium;
    } else {
      confidence := Low;
    }
    var strengths := Strengths(scores);
    var developmentAreas := DevelopmentAreas(scores);
    var guidanceMessage := GenerateGuidanceMessage(topPathway.pathway, topPathway.score, confidence,
                                                   strengths, developmentAreas, scores);
    r := PathwayRecommendation(Round(stemScore), Round(artsScore), Round(socialScore),
                               topPathway.pathway, confidence, strengths, developmentAreas,
                               guidanceMessage, calculatedAt);
  }

  /** The recommended pathway has the highest unrounded score, ties going to
      the earlier of STEM, Arts & Sports, Social Sciences; the confidence is
      rated on the unrounded lead of the highest over the middle score; the
      stored scores are the rounded pathway scores. */
  lemma {:induction false} AffinityTopAndConfidence(scores: ScoreMap, calculatedAt: string)
    ensures var s, a, o := WeightedScore(scores, StemWeights), WeightedScore(scores, ArtsWeights),
                          WeightedScore(scores, SocialWeights);
            var r := Affinity(scores, calculatedAt);
            && (r.topPathway == Stem <==> s >= a && s >= o)
            && (r.topPathway == ArtsSports <==> a > s && a >= o)
            && (r.topPathway == SocialSciences <==> o > s && o > a)
            && r.confidence == Classify(Max3(s, a, o) - Median3(s, a, o))
            && r.stemScore == Round(s) && r.artsSportsScore == Round(a) && r.socialSciencesScore == Round(o)
  {
    RankingOrder(scores);
  }

  /** When two pathways share the highest score the confidence is low. */
  lemma {:induction false} TiedTopGivesLow(scores: ScoreMap, calculatedAt: string)
    requires var s, a, o := WeightedScore(scores, StemWeights), WeightedScore(scores, ArtsWeights),
                           WeightedScore(scores, SocialWeights);
             (s == a && s >= o) || (s == o && s >= a) || (a == o && a >= s)
    ensures Affinity(scores, calculatedAt).confidence == Low
  {
    AffinityTopAndConfidence(scores, calculatedAt);
  }

  /** With every score between 0 and 4 the three stored scores are whole
      percentages. */
  lemma {:induction false} AffinityScoresArePercentages(scores: ScoreMap, calculatedAt: string)
    requires ScoresWithin(scores, 0, 4)
    ensures var r := Affinity(scores, calculatedAt);
            && 0 <= r.stemScore <= 100
            && 0 <= r.artsSportsScore <= 100
            && 0 <= r.socialSciencesScore <= 100
  {
    WeightedScoreBounds(scores, StemWeights);
    WeightedScoreBounds(scores, ArtsWeights);
    WeightedScoreBounds(scores, SocialWeights);
  }

  /** An empty score map scores 0 everywhere and, by the stable sort, falls
      to STEM with low confidence. */
  lemma {:induction false} EmptyScoresGiveStemLow(calculatedAt: string)
    ensures var r := Affinity([], calculatedAt);
            && r.stemScore == 0 && r.artsSportsScore == 0 && r.socialSciencesScore == 0
            && r.topPathway == Stem && r.confidence == Low
            && r.strengths == [] && r.developmentAreas == []
  {
    AffinityTopAndConfidence([], calculatedAt);
    ZeroForEmpty(StemWeights);
    ZeroForEmpty(ArtsWeights);
    ZeroForEmpty(SocialWeights);
  }

  lemma {:induction false} ZeroForEmpty(weights: Weights)
    ensures WeightedTotal([], weights) == 0.0 && WeightedScore([], weights) == 0.0
  {
    if weights != [] {
      ZeroForEmpty(weights[..|weights| - 1]);
      assert Contribution([], weights[|weights| - 1]) == 0.0 * weights[|weights| - 1].1;
    }
  }

  lemma {:induction false} ThreeSubjectScore(scores: ScoreMap, weights: Weights)
    requires |weights| == 3
    ensures WeightedTotal(scores, weights) ==
            Contribution(scores, weights[0]) + Contribution(scores, weights[1]) + Contribution(scores, weights[2])
    ensures TotalWeight(weights) == weights[0].1 + weights[1].1 + weights[2].1
  {
    var one, two := weights[..1], weights[..2];
    assert two[..1] == one && one[..0] == [];
    assert WeightedTotal(scores, one) == Contribution(scores, weights[0]);
    assert WeightedTotal(scores, two) == WeightedTotal(scores, one) + Contribution(scores, weights[1]);
    assert TotalWeight(two) == TotalWeight(one) + weights[1].1;
  }

  const SampleScores: ScoreMap := [
    ("mathematics", 4), ("integrated_science", 4), ("pre_technical_studies", 3),
    ("creative_arts_sports", 1), ("english", 2), ("kiswahili", 2), ("social_studies", 1)]

  /** A learner strong in mathematics and science: STEM scores
      (40 + 35 + 18.75) / 1 = 93.75, stored as 94, Arts & Sports 35 and Social
      Sciences 40, so STEM leads by more than 20 and the confidence is high. */
  lemma {:induction false} SampleLearnerIsStem(calculatedAt: string)
    ensures var r := Affinity(SampleScores, calculatedAt);
            && r.stemScore == 94 && r.artsSportsScore == 35 && r.socialSciencesScore == 40
            && r.topPathway == Stem && r.confidence == High
  {
    assert ScoreOf(SampleScores, "mathematics") == 4;
    assert ScoreOf(SampleScores, "integrated_science") == 4;
    assert ScoreOf(SampleScores, "pre_technical_studies") == 3;
    assert ScoreOf(SampleScores, "creative_arts_sports") == 1;
    assert ScoreOf(SampleScores, "english") == 2;
    assert ScoreOf(SampleScores, "kiswahili") == 2;
    assert ScoreOf(SampleScores, "social_studies") == 1;
    ThreeSubjectScore(SampleScores, StemWeights);
    ThreeSubjectScore(SampleScores, ArtsWeights);
    ThreeSubjectScore(SampleScores, SocialWeights);
    assert WeightedScore(SampleScores, StemWeights) == 93.75;
    assert WeightedScore(SampleScores, ArtsWeights) == 35.0;
    assert WeightedScore(SampleScores, SocialWeights) == 40.0;
    AffinityTopAndConfidence(SampleScores, calculatedAt);
  }
}
