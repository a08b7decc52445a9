/** The scoring aggregator: a score per analysis dimension, the weighted
    composite and its risk level, the distribution of risks over the
    severities, the key risks, the recommendations, and the additive risk
    score of a single clause. */
module IntelligentScoring {
  import opened Wrappers
  import opened Text
  import opened Sorting
  import opened ReviewConfig
  import opened Analysis

  // ---------------------------------------------------------------------
  // Dimension score

  /** The severity a risk record counts as: general when it has none. */
  function LevelOf(r: RiskItem): string {
    r.level.GetOr(General)
  }

  /** Three tenths of the score of a severity (100, 70, 40 and 10 for
      fatal, important, general and minor); an unknown severity scores as
      general. */
  function RiskIncrement(level: string): (inc: nat)
    ensures 3 <= inc <= 30
  {
    if level == Fatal then 30 else if level == Important then 21 else if level == Minor then 3 else 12
  }

  /** The increments of all risks. */
  function RiskSum(risks: seq<RiskItem>): (total: nat)
    ensures 3 * |risks| <= total <= 30 * |risks|
    decreases |risks|
  {
    if risks == [] then 0
    else RiskSum(risks[..|risks| - 1]) + RiskIncrement(LevelOf(risks[|risks| - 1]))
  }

  /** `max(0, min(100, x))`. */
  function Clamp(x: int): (r: int)
    ensures 0 <= r <= 100
    ensures 0 <= x <= 100 ==> r == x
    ensures x < 0 ==> r == 0
    ensures x > 100 ==> r == 100
  {
    if x < 0 then 0 else Min(100, x)
  }

  /** The score of one dimension: 50, plus the increments of its risks,
      minus 2 per finding, kept within 0 to 100. */
  function DimensionScore(a: DimensionAnalysis): int {
    Clamp(50 + RiskSum(a.risks) - 2 * |a.findings|)
  }

  method CalculateDimensionScore(a: DimensionAnalysis) returns (score: int)
    ensures score == DimensionScore(a)
    ensures 0 <= score <= 100
  {
    var baseScore: int := 50;
    var i := 0;
    while i < |a.risks|
      invariant 0 <= i <= |a.risks|
      invariant baseScore == 50 + RiskSum(a.risks[..i])
    {
      assert a.risks[..i + 1][..i] == a.risks[..i];
      var level := LevelOf(a.risks[i]);
      baseScore := baseScore + RiskIncrement(level);
      i := i + 1;
    }
    assert a.risks[..i] == a.risks;
    baseScore := baseScore - |a.findings| * 2;
    score := Min(100, baseScore);
    if score < 0 {
      score := 0;
    }
  }

  /** One more risk never lowers a dimension's score, one more finding
      never raises it, and a dimension with neither scores 50. */
  lemma DimensionScoreMonotone(a: DimensionAnalysis, r: RiskItem, f: Finding)
    ensures DimensionScore(a.(risks := a.risks + [r])) >= DimensionScore(a)
    ensures DimensionScore(a.(findings := a.findings + [f])) <= DimensionScore(a)
    ensures a.risks == [] && a.findings == [] ==> DimensionScore(a) == 50
  {
    assert (a.risks + [r])[..|a.risks|] == a.risks;
  }

  // ---------------------------------------------------------------------
  // Composite score and its level

  /** The weighted composite: 0.3 commercial, 0.4 legal, 0.3 practical. */
  function Composite(commercial: int, legal: int, practical: int): real {
    commercial as real * 0.3 + legal as real * 0.4 + practical as real * 0.3
  }

  /** The weights add up to one: the composite of scores within 0 to 100
      lies within 0 to 100, and equal scores give that score. Changing the
      legal score alone by `d` changes the composite by `0.4 d`. */
  lemma CompositeProperties(c: int, l: int, p: int, d: int)
    ensures 0 <= c <= 100 && 0 <= l <= 100 && 0 <= p <= 100 ==> 0.0 <= Composite(c, l, p) <= 100.0
    ensures Composite(c, c, c) == c as real
    ensures Composite(c, l + d, p) == Composite(c, l, p) + 0.4 * d as real
  {
  }

  const High := "高风险"
  const Medium := "中等风险"
  const Low := "低风险"
  const VeryLow := "极低风险"

  function LevelRank(level: string): nat {
    if level == High then 3 else if level == Medium then 2 else if level == Low then 1 else 0
  }

  /** The level of a composite: 80 and above high, 60 and above medium, 40
      and above low, anything lower very low. */
  function DetermineRiskLevel(score: real): (level: string)
    ensures level in [High, Medium, Low, VeryLow]
    ensures LevelRank(level) == if score >= 80.0 then 3 else if score >= 60.0 then 2 else if score >= 40.0 then 1 else 0
  {
    if score >= 80.0 then High
    else if score >= 60.0 then Medium
    else if score >= 40.0 then Low
    else VeryLow
  }

  /** A lower composite never gets a higher level. */
  lemma RiskLevelMonotone(lower: real, higher: real)
    requires lower <= higher
    ensures LevelRank(DetermineRiskLevel(lower)) <= LevelRank(DetermineRiskLevel(higher))
  {
  }

  // ---------------------------------------------------------------------
  // Distribution of the risks over the severities

  datatype Tally = Tally(level: string, count: nat)

  /** The risks of all analyses, in order. */
  function AllRisks(analyses: seq<DimensionAnalysis>): seq<RiskItem>
    decreases |analyses|
  {
    if analyses == [] then []
    else AllRisks(analyses[..|analyses| - 1]) + analyses[|analyses| - 1].risks
  }

  /** The number of risks that count as `level`. */
  function CountLevel(risks: seq<RiskItem>, level: string): (n: nat)
    ensures n <= |risks|
    decreases |risks|
  {
    if risks == [] then 0
    else CountLevel(risks[..|risks| - 1], level) + (if LevelOf(risks[|risks| - 1]) == level then 1 else 0)
  }

  /** The number of risks whose severity is none of the four. */
  function CountOther(risks: seq<RiskItem>): nat
    decreases |risks|
  {
    if risks == [] then 0
    else CountOther(risks[..|risks| - 1]) + (if LevelOf(risks[|risks| - 1]) in Severities then 0 else 1)
  }

  lemma CountLevelSnoc(risks: seq<RiskItem>, x: RiskItem, level: string)
    ensures CountLevel(risks + [x], level) == CountLevel(risks, level) + (if LevelOf(x) == level then 1 else 0)
  {
    assert (risks + [x])[..|risks|] == risks;
  }

  lemma AllRisksSnoc(analyses: seq<DimensionAnalysis>, i: nat)
    requires i < |analyses|
    ensures AllRisks(analyses[..i + 1]) == AllRisks(analyses[..i]) + analyses[i].risks
  {
    assert analyses[..i + 1][..i] == analyses[..i];
  }

  /** Adds the severities of `risks` to the four counts of the risks
      `before`. */
  method CountInto(ghost before: seq<RiskItem>, risks: seq<RiskItem>, fatal0: nat, important0: nat, general0: nat, minor0: nat)
    returns (fatal: nat, important: nat, general: nat, minor: nat)
    requires fatal0 == CountLevel(before, Fatal) && important0 == CountLevel(before, Important)
    requires general0 == CountLevel(before, General) && minor0 == CountLevel(before, Minor)
    ensures fatal == CountLevel(before + risks, Fatal) && important == CountLevel(before + risks, Important)
    ensures general == CountLevel(before + risks, General) && minor == CountLevel(before + risks, Minor)
  {
    fatal, important, general, minor := fatal0, important0, general0, minor0;
    var j := 0;
    assert before + risks[..j] == before;
    while j < |risks|
      invariant 0 <= j <= |risks|
      invariant fatal == CountLevel(before + risks[..j], Fatal)
      invariant important == CountLevel(before + risks[..j], Important)
      invariant general == CountLevel(before + risks[..j], General)
      invariant minor == CountLevel(before + risks[..j], Minor)
    {
      var level := LevelOf(risks[j]);
      assert before + risks[..j + 1] == (before + risks[..j]) + [risks[j]];
      CountLevelSnoc(before + risks[..j], risks[j], Fatal);
      CountLevelSnoc(before + risks[..j], risks[j], Important);
      CountLevelSnoc(before + risks[..j], risks[j], General);
      CountLevelSnoc(before + risks[..j], risks[j], Minor);
      if level == Fatal {
        fatal := fatal + 1;
      } else if level == Important {
        important := important + 1;
      } else if level == General {
        general := general + 1;
      } else if level == Minor {
        minor := minor + 1;
      }
      j := j + 1;
    }
    assert risks[..j] == risks;
  }

  /** Counts the risks of every analysis by severity: all four severities
      are present, in the order of `Severities`, each with the number of
      risks that count as it. */
  method AnalyzeRiskDistribution(analyses: seq<DimensionAnalysis>) returns (distribution: seq<Tally>)
    ensures |distribution| == 4
    ensures forall k :: 0 <= k < 4 ==>
      distribution[k] == Tally(Severities[k], CountLevel(AllRisks(analyses), Severities[k]))
  {
    var fatal, important, general, minor := 0, 0, 0, 0;
    var i := 0;
    while i < |analyses|
      invariant 0 <= i <= |analyses|
      invariant fatal == CountLevel(AllRisks(analyses[..i]), Fatal)
      invariant important == CountLevel(AllRisks(analyses[..i]), Important)
      invariant general == CountLevel(AllRisks(analyses[..i]), General)
      invariant minor == CountLevel(AllRisks(analyses[..i]), Minor)
    {
      fatal, important, general, minor := CountInto(AllRisks(analyses[..i]), analyses[i].risks, fatal, important, general, minor);
      AllRisksSnoc(analyses, i);
      i := i + 1;
    }
    assert analyses[..i] == analyses;
    distribution := [Tally(Fatal, fatal), Tally(Important, important), Tally(General, general), Tally(Minor, minor)];
  }

  /** The four counts and the risks of other severities add up to all
      risks: the distribution counts every risk whose severity is one of the
      four. */
  lemma {:induction false} DistributionPartition(risks: seq<RiskItem>)
    ensures CountLevel(risks, Fatal) + CountLevel(risks, Important) + CountLevel(risks, General)
            + CountLevel(risks, Minor) + CountOther(risks) == |risks|
    decreases |risks|
  {
    if risks != [] {
      DistributionPartition(risks[..|risks| - 1]);
    }
  }

  // ---------------------------------------------------------------------
  // Key risks

  /** A fatal or important risk, tagged with the dimension it came from. */
  datatype KeyRisk = KeyRisk(dimension: string, riskType: string, description: string, level: string, suggestion: string)

  /** A risk is key when its severity is fatal or important (a record
      without a severity is not). */
  predicate IsKey(r: RiskItem) {
    r.level == Some(Fatal) || r.level == Some(Important)
  }

  function KeyOf(a: DimensionAnalysis, r: RiskItem): KeyRisk
    requires r.level.Some?
  {
    KeyRisk(a.dimension.GetOr("未知"), r.riskType.GetOr("未知"), r.description.GetOr(""), r.level.value,
            r.suggestion.GetOr(""))
  }

  /** The sort key of a key risk: the score of its severity. */
  function KeyRank(k: KeyRisk): int {
    if k.level == Fatal then 100 else if k.level == Important then 70 else 0
  }

  /** The key risks among `risks` of analysis `a`, in order. */
  function KeysIn(a: DimensionAnalysis, risks: seq<RiskItem>): (ks: seq<KeyRisk>)
    ensures forall x :: x in ks ==> x.level == Fatal || x.level == Important
    ensures |ks| == CountLevel(risks, Fatal) + CountLevel(risks, Important)
    decreases |risks|
  {
    if risks == [] then []
    else
      var r := risks[|risks| - 1];
      KeysIn(a, risks[..|risks| - 1]) + (if IsKey(r) then [KeyOf(a, r)] else [])
  }

  /** The key risks of all analyses, in encounter order. */
  function Tagged(analyses: seq<DimensionAnalysis>): (ks: seq<KeyRisk>)
    ensures forall x :: x in ks ==> x.level == Fatal || x.level == Important
    ensures |ks| == CountLevel(AllRisks(analyses), Fatal) + CountLevel(AllRisks(analyses), Important)
    decreases |analyses|
  {
    if analyses == [] then []
    else
      var a := analyses[|analyses| - 1];
      var init := analyses[..|analyses| - 1];
      CountLevelAppend(AllRisks(init), a.risks, Fatal);
      CountLevelAppend(AllRisks(init), a.risks, Important);
      Tagged(init) + KeysIn(a, a.risks)
  }

  lemma {:induction false} CountLevelAppend(a: seq<RiskItem>, b: seq<RiskItem>, level: string)
    ensures CountLevel(a + b, level) == CountLevel(a, level) + CountLevel(b, level)
    decreases |b|
  {
    if b == [] {
      assert a + b == a;
    } else {
      var n := |b| - 1;
      assert (a + b)[..|a + b| - 1] == a + b[..n];
      CountLevelAppend(a, b[..n], level);
    }
  }

  lemma KeysInSnoc(a: DimensionAnalysis, risks: seq<RiskItem>, j: nat)
    requires j < |risks|
    ensures KeysIn(a, risks[..j + 1]) == KeysIn(a, risks[..j]) + (if IsKey(risks[j]) then [KeyOf(a, risks[j])] else [])
  {
    assert risks[..j + 1][..j] == risks[..j];
  }

  lemma TaggedSnoc(analyses: seq<DimensionAnalysis>, i: nat)
    requires i < |analyses|
    ensures Tagged(analyses[..i + 1]) == Tagged(analyses[..i]) + KeysIn(analyses[i], analyses[i].risks)
  {
    assert analyses[..i + 1][..i] == analyses[..i];
  }

  /** The key risks of one analysis, in order. */
  method KeyRisksOf(a: DimensionAnalysis) returns (keyRisks: seq<KeyRisk>)
    ensures keyRisks == KeysIn(a, a.risks)
  {
    keyRisks := [];
    var j := 0;
    while j < |a.risks|
      invariant 0 <= j <= |a.risks|
      invariant keyRisks == KeysIn(a, a.risks[..j])
    {
      var risk := a.risks[j];
      KeysInSnoc(a, a.risks, j);
      if risk.level == Some(Fatal) || risk.level == Some(Important) {
        keyRisks := keyRisks + [KeyOf(a, risk)];
      }
      j := j + 1;
    }
    assert a.risks[..j] == a.risks;
  }

  /** The key risks of all analyses, in encounter order. */
  method CollectKeyRisks(analyses: seq<DimensionAnalysis>) returns (keyRisks: seq<KeyRisk>)
    ensures keyRisks == Tagged(analyses)
  {
    keyRisks := [];
    var i := 0;
    while i < |analyses|
      invariant 0 <= i <= |analyses|
      invariant keyRisks == Tagged(analyses[..i])
    {
      var found := KeyRisksOf(analyses[i]);
      TaggedSnoc(analyses, i);
      keyRisks := keyRisks + found;
      i := i + 1;
    }
    assert analyses[..i] == analyses;
  }

  /** Collects the fatal and important risks of every analysis, tagged with
      their dimension, and sorts them stably by severity: the result is the
      key risks in an order where every fatal risk comes first and risks of
      the same severity keep their encounter order. */
  method IdentifyKeyRisks(analyses: seq<DimensionAnalysis>) returns (keyRisks: seq<KeyRisk>)
    ensures keyRisks == SortDesc(Tagged(analyses), KeyRank)
    ensures SortedDesc(keyRisks, KeyRank)
    ensures multiset(keyRisks) == multiset(Tagged(analyses))
    ensures forall v :: WithKey(keyRisks, KeyRank, v) == WithKey(Tagged(analyses), KeyRank, v)
  {
    var unsorted := CollectKeyRisks(analyses);
    keyRisks := SortDesc(unsorted, KeyRank);
    forall v ensures WithKey(keyRisks, KeyRank, v) == WithKey(unsorted, KeyRank, v) {
      SortStable(unsorted, KeyRank, v);
    }
  }

  /** In any list of key risks sorted by severity, fatal ones come first. */
  lemma FatalFirst(ks: seq<KeyRisk>)
    requires SortedDesc(ks, KeyRank)
    ensures forall i, j :: 0 <= i < |ks| && 0 <= j < |ks| && ks[i].level == Fatal && ks[j].level == Important ==> i < j
  {
    forall i, j | 0 <= i < |ks| && 0 <= j < |ks| && ks[i].level == Fatal && ks[j].level == Important
      ensures i < j
    {
      assert KeyRank(ks[i]) == 100 && KeyRank(ks[j]) == 70;
    }
  }

  /** In the sorted key risks every fatal risk precedes every important
      one, and there are as many as the distribution's first two counts. */
  lemma FatalBeforeImportant(analyses: seq<DimensionAnalysis>)
    ensures var ks := SortDesc(Tagged(analyses), KeyRank);
      (forall i, j :: 0 <= i < |ks| && 0 <= j < |ks| && ks[i].level == Fatal && ks[j].level == Important ==> i < j)
      && |ks| == CountLevel(AllRisks(analyses), Fatal) + CountLevel(AllRisks(analyses), Important)
  {
    FatalFirst(SortDesc(Tagged(analyses), KeyRank));
  }

  // ---------------------------------------------------------------------
  // Recommendations

  /** Some risk's description (empty when absent) mentions vagueness. */
  predicate MentionsVague(risks: seq<RiskItem>) {
    exists k :: 0 <= k < |risks| && Contains(risks[k].description.GetOr(""), "模糊")
  }

  function FatalMessage(dimension: string, n: nat): string {
    "\U{1F6A8} " + dimension + ": 发现" + NatToString(n) + "个致命风险,必须修改"
  }

  /** The recommendation one analysis contributes, if any. */
  function RecommendationOf(a: DimensionAnalysis): Option<string> {
    var dimension := a.dimension.GetOr("");
    var rating := a.rating.GetOr("");
    if dimension == Commercial then
      if rating == "较差" || rating == "差" then Some("\U{26A0}\U{FE0F} " + dimension + ": 商业风险较高,建议重新评估交易结构")
      else if rating == "中等" then Some("\U{2139}\U{FE0F} " + dimension + ": 建议关注商业条款的合理性")
      else None
    else if dimension == Legal then
      var n := CountLevel(a.risks, Fatal);
      if n > 0 then Some(FatalMessage(dimension, n)) else None
    else if dimension == Practical then
      if MentionsVague(a.risks) then Some("\U{1F4A1} " + dimension + ": 建议明确模糊表述,提高可执行性") else None
    else None
  }

  /** When an analysis contributes a recommendation: the commercial one for
      a poor, bad or medium rating, the legal one when it has a fatal risk,
      and then the message states the number of fatal risks, the practical
      one when a risk mentions vagueness; no other analysis contributes. */
  lemma RecommendationRule(a: DimensionAnalysis)
    ensures RecommendationOf(a).Some? <==>
      (a.dimension == Some(Commercial) && a.rating.GetOr("") in ["较差", "差", "中等"])
      || (a.dimension == Some(Legal) && CountLevel(a.risks, Fatal) > 0)
      || (a.dimension == Some(Practical) && MentionsVague(a.risks))
    ensures a.dimension == Some(Legal) && RecommendationOf(a).Some? ==>
      Contains(RecommendationOf(a).value, NatToString(CountLevel(a.risks, Fatal)))
  {
    if a.dimension == Some(Legal) && RecommendationOf(a).Some? {
      var n := CountLevel(a.risks, Fatal);
      var prefix := "\U{1F6A8} " + Legal + ": 发现";
      var msg := FatalMessage(Legal, n);
      assert msg == prefix + NatToString(n) + "个致命风险,必须修改";
      ContainsExtend(prefix, NatToString(n), "个致命风险,必须修改", NatToString(n));
    }
  }

  /** The recommendations of the analyses, in order. */
  function Recommendations(analyses: seq<DimensionAnalysis>): seq<string>
    decreases |analyses|
  {
    if analyses == [] then []
    else
      var a := analyses[|analyses| - 1];
      Recommendations(analyses[..|analyses| - 1]) + (if RecommendationOf(a).Some? then [RecommendationOf(a).value] else [])
  }

  /** At most one recommendation per analysis, each one contributed by
      some analysis. */
  lemma {:induction false} RecommendationsBound(analyses: seq<DimensionAnalysis>)
    ensures |Recommendations(analyses)| <= |analyses|
    ensures forall m :: m in Recommendations(analyses) ==>
      exists i :: 0 <= i < |analyses| && RecommendationOf(analyses[i]) == Some(m)
    decreases |analyses|
  {
    if analyses != [] {
      var n := |analyses| - 1;
      RecommendationsBound(analyses[..n]);
      assert forall i :: 0 <= i < n ==> analyses[..n][i] == analyses[i];
    }
  }

  method GenerateRecommendations(analyses: seq<DimensionAnalysis>) returns (recommendations: seq<string>)
    ensures recommendations == Recommendations(analyses)
  {
    recommendations := [];
    var i := 0;
    while i < |analyses|
      invariant 0 <= i <= |analyses|
      invariant recommendations == Recommendations(analyses[..i])
    {
      var a := analyses[i];
      assert analyses[..i + 1][..i] == analyses[..i];
      var dimension := a.dimension.GetOr("");
      var rating := a.rating.GetOr("");
      if dimension == Commercial {
        if rating == "较差" || rating == "差" {
          recommendations := recommendations + ["\U{26A0}\U{FE0F} " + dimension + ": 商业风险较高,建议重新评估交易结构"];
        } else if rating == "中等" {
          recommendations := recommendations + ["\U{2139}\U{FE0F} " + dimension + ": 建议关注商业条款的合理性"];
        }
      } else if dimension == Legal {
        var fatalRisks := CountLevel(a.risks, Fatal);
        if fatalRisks > 0 {
          recommendations := recommendations + [FatalMessage(dimension, fatalRisks)];
        }
      } else if dimension == Practical {
        if MentionsVague(a.risks) {
          recommendations := recommendations + ["\U{1F4A1} " + dimension + ": 建议明确模糊表述,提高可执行性"];
        }
      }
      i := i + 1;
    }
    assert analyses[..i] == analyses;
  }

  // ---------------------------------------------------------------------
  // Comprehensive score

  datatype DimensionScores = DimensionScores(commercial: int, legal: int, practical: int)

  datatype ComprehensiveReport = ComprehensiveReport(
    comprehensiveScore: real,
    riskLevel: string,
    dimensionScores: DimensionScores,
    riskDistribution: seq<Tally>,
    recommendations: seq<string>,
    keyRisks: seq<KeyRisk>)

  /** Scores the three analyses and assembles the report. */
  method CalculateComprehensiveRiskScore(commercial: DimensionAnalysis, legal: DimensionAnalysis,
                                         practical: DimensionAnalysis) returns (report: ComprehensiveReport)
    ensures report.dimensionScores ==
      DimensionScores(DimensionScore(commercial), DimensionScore(legal), DimensionScore(practical))
    ensures report.comprehensiveScore ==
      Composite(DimensionScore(commercial), DimensionScore(legal), DimensionScore(practical))
    ensures 0.0 <= report.comprehensiveScore <= 100.0
    ensures report.riskLevel == DetermineRiskLevel(report.comprehensiveScore)
    ensures |report.riskDistribution| == 4
    ensures forall k :: 0 <= k < 4 ==>
      report.riskDistribution[k] == Tally(Severities[k], CountLevel(AllRisks([commercial, legal, practical]), Severities[k]))
    ensures report.recommendations == Recommendations([commercial, legal, practical])
    ensures report.keyRisks == SortDesc(Tagged([commercial, legal, practical]), KeyRank)
  {
    var commercialScore := CalculateDimensionScore(commercial);
    var legalScore := CalculateDimensionScore(legal);
    var practicalScore := CalculateDimensionScore(practical);
    var comprehensiveScore := commercialScore as real * 0.3 + legalScore as real * 0.4 + practicalScore as real * 0.3;
    CompositeProperties(commercialScore, legalScore, practicalScore, 0);
    var riskLevel := DetermineRiskLevel(comprehensiveScore);
    var recommendations := GenerateRecommendations([commercial, legal, practical]);
    var distribution := AnalyzeRiskDistribution([commercial, legal, practical]);
    var keyRisks := IdentifyKeyRisks([commercial, legal, practical]);
    report := ComprehensiveReport(comprehensiveScore, riskLevel,
      DimensionScores(commercialScore, legalScore, practicalScore), distribution, recommendations, keyRisks);
  }

  // ---------------------------------------------------------------------
  // Score of a single clause

  const VagueWords := ["合理", "尽快", "适当", "相关", "等"]

  /** The clause uses a vague word. */
  predicate IsVague(text: string) {
    exists k :: 0 <= k < |VagueWords| && Contains(text, VagueWords[k])
  }

  /** The elements a clause of a known type should name; none for any other
      type. */
  function KeyElementsOf(clauseType: string): seq<string> {
    var table := map[
      "标的" := ["名称", "规格", "数量"],
      "价款" := ["金额", "币种", "支付方式"],
      "履行" := ["时间", "地点", "方式"],
      "违约责任" := ["违约金", "赔偿", "计算方式"]];
    if clauseType in table then table[clauseType] else []
  }

  /** At least half of the clause type's elements occur. */
  predicate HasKeyElements(text: string, clauseType: string) {
    2 * CountPresent(KeyElementsOf(clauseType), text) >= |KeyElementsOf(clauseType)|
  }

  /** The element rule: a clause of a type without elements always has
      them; for the four known types two of the three must occur. */
  lemma KeyElementsRule(text: string, clauseType: string)
    ensures clauseType !in ["标的", "价款", "履行", "违约责任"] ==> HasKeyElements(text, clauseType)
    ensures clauseType in ["标的", "价款", "履行", "违约责任"] ==>
      (HasKeyElements(text, clauseType) <==> CountPresent(KeyElementsOf(clauseType), text) >= 2)
  {
  }

  /** The clause binds both parties. */
  predicate IsBalanced(text: string) {
    Contains(text, "甲方") && Contains(text, "乙方")
  }

  /** A decimal digit: the ASCII digits and the full-width digits. */
  predicate IsDigit(c: char) {
    '0' <= c <= '9' || '０' <= c <= '９'
  }

  /** Some digit is directly followed by one of `units` (the pattern
      "digits, then one unit character"). */
  predicate DigitThen(text: string, units: string) {
    exists i :: 0 <= i < |text| - 1 && IsDigit(text[i]) && text[i + 1] in units
  }

  /** The clause names a time, an amount or a standard. */
  predicate IsExecutable(text: string) {
    DigitThen(text, "年月天周小时") || DigitThen(text, "元万") || Contains(text, "标准") || Contains(text, "规格")
  }

  /** Each check only looks for something in the text, so text around a
      clause never makes it less vague, less complete, less balanced or
      less executable. */
  lemma ChecksSurviveContext(a: string, text: string, b: string, clauseType: string)
    ensures IsVague(text) ==> IsVague(a + text + b)
    ensures IsBalanced(text) ==> IsBalanced(a + text + b)
    ensures IsExecutable(text) ==> IsExecutable(a + text + b)
    ensures CountPresent(KeyElementsOf(clauseType), text) <= CountPresent(KeyElementsOf(clauseType), a + text + b)
  {
    var t := a + text + b;
    if IsVague(text) {
      var k :| 0 <= k < |VagueWords| && Contains(text, VagueWords[k]);
      ContainsExtend(a, text, b, VagueWords[k]);
    }
    if IsBalanced(text) {
      ContainsExtend(a, text, b, "甲方");
      ContainsExtend(a, text, b, "乙方");
    }
    if DigitThen(text, "年月天周小时") {
      var i :| 0 <= i < |text| - 1 && IsDigit(text[i]) && text[i + 1] in "年月天周小时";
      assert t[|a| + i] == text[i] && t[|a| + i + 1] == text[i + 1];
    }
    if DigitThen(text, "元万") {
      var i :| 0 <= i < |text| - 1 && IsDigit(text[i]) && text[i + 1] in "元万";
      assert t[|a| + i] == text[i] && t[|a| + i + 1] == text[i + 1];
    }
    if Contains(text, "标准") {
      ContainsExtend(a, text, b, "标准");
    }
    if Contains(text, "规格") {
      ContainsExtend(a, text, b, "规格");
    }
    CountPresentExtend(a, text, b, KeyElementsOf(clauseType));
  }

  lemma {:induction false} CountPresentExtend(a: string, text: string, b: string, words: seq<string>)
    ensures CountPresent(words, text) <= CountPresent(words, a + text + b)
    decreases |words|
  {
    if words != [] {
      CountPresentExtend(a, text, b, words[1..]);
      if Contains(text, words[0]) {
        ContainsExtend(a, text, b, words[0]);
      }
    }
  }

  const VagueIssue := "条款表述模糊,缺乏明确标准"
  const MissingIssue := "条款缺少关键要素"
  const UnbalancedIssue := "权利义务不平衡"
  const InoperableIssue := "缺乏可操作性"

  /** The issue when its check fails, nothing otherwise. */
  function IssueIf(failed: bool, issue: string): seq<string> {
    if failed then [issue] else []
  }

  /** The issues for the four check outcomes, in the order the checks run. */
  function IssuesOf(vague: bool, complete: bool, balanced: bool, executable: bool): seq<string> {
    IssueIf(vague, VagueIssue) + IssueIf(!complete, MissingIssue)
    + IssueIf(!balanced, UnbalancedIssue) + IssueIf(!executable, InoperableIssue)
  }

  /** The score for the four check outcomes: 30 when vague, 40 when
      elements are missing, 20 when unbalanced and 25 when not executable. */
  function ScoreOf(vague: bool, complete: bool, balanced: bool, executable: bool): nat {
    (if vague then 30 else 0) + (if !complete then 40 else 0)
    + (if !balanced then 20 else 0) + (if !executable then 25 else 0)
  }

  /** The issues found in a clause. */
  function ClauseIssues(text: string, clauseType: string): seq<string> {
    IssuesOf(IsVague(text), HasKeyElements(text, clauseType), IsBalanced(text), IsExecutable(text))
  }

  /** The score of a clause. */
  function ClauseScoreOf(text: string, clauseType: string): nat {
    ScoreOf(IsVague(text), HasKeyElements(text, clauseType), IsBalanced(text), IsExecutable(text))
  }

  /** The severity of a clause score: 80 and above fatal, 50 and above
      important, 20 and above general, anything lower minor. */
  function ClauseLevel(score: int): string {
    if score >= 80 then Fatal else if score >= 50 then Important else if score >= 20 then General else Minor
  }

  /** The score lies within 0 to 115, is zero exactly when no issue is
      found, and the four weights have distinct subset sums, so the score
      alone tells which issues were found. */
  lemma ClauseScoreProperties(text: string, clauseType: string, text2: string, clauseType2: string)
    ensures ClauseScoreOf(text, clauseType) <= 115
    ensures ClauseScoreOf(text, clauseType) == 0 <==> ClauseIssues(text, clauseType) == []
    ensures ClauseScoreOf(text, clauseType) == ClauseScoreOf(text2, clauseType2) ==>
      ClauseIssues(text, clauseType) == ClauseIssues(text2, clauseType2)
  {
  }

  /** A lower clause score never gets a higher severity. */
  lemma ClauseLevelMonotone(lower: int, higher: int)
    requires lower <= higher
    ensures Rank(ClauseLevel(lower)) <= Rank(ClauseLevel(higher))
  {
  }

  function Rank(level: string): nat {
    if level == Fatal then 3 else if level == Important then 2 else if level == General then 1 else 0
  }

  /** The suggestion text for a clause type, before the notes. */
  function SuggestionBase(clauseType: string): string {
    var table := map[
      "标的" := "建议明确标的物的名称、规格、数量、质量标准等关键信息",
      "价款" := "建议明确金额、币种、支付时间、支付方式等",
      "履行" := "建议明确履行时间、地点、方式、验收标准等",
      "违约责任" := "建议明确违约情形、违约金计算方式、赔偿范围等"];
    if clauseType in table then table[clauseType] else "建议完善条款内容"
  }

  const VagueNote := "，避免使用模糊表述"
  const BalanceNote := "，注意权利义务对等"

  /** Some issue mentions `word` (the issues are searched in their printed
      list form, where `word` can only occur inside one issue). */
  predicate Mentions(issues: seq<string>, word: string) {
    exists k :: 0 <= k < |issues| && Contains(issues[k], word)
  }

  /** The suggestion: the base text, a note against vagueness when an issue
      mentions it and a note on reciprocity when an issue mentions
      imbalance. */
  function ClauseSuggestion(clauseType: string, issues: seq<string>): string {
    SuggestionBase(clauseType)
    + (if Mentions(issues, "模糊") then VagueNote else "")
    + (if Mentions(issues, "不平衡") then BalanceNote else "")
  }

  /** Some issue of `a + b` mentions `word` exactly when some issue of `a`
      or of `b` does. */
  lemma MentionsAppend(a: seq<string>, b: seq<string>, word: string)
    ensures Mentions(a + b, word) <==> Mentions(a, word) || Mentions(b, word)
  {
    if Mentions(a + b, word) {
      var k :| 0 <= k < |a + b| && Contains((a + b)[k], word);
      if k < |a| {
        assert a[k] == (a + b)[k];
      } else {
        assert b[k - |a|] == (a + b)[k];
      }
    }
    if Mentions(a, word) {
      var k :| 0 <= k < |a| && Contains(a[k], word);
      assert (a + b)[k] == a[k];
    }
    if Mentions(b, word) {
      var k :| 0 <= k < |b| && Contains(b[k], word);
      assert (a + b)[|a| + k] == b[k];
    }
  }

  /** A single issue mentions `word` when its text does. */
  lemma MentionsIssueIf(failed: bool, issue: string, word: string)
    ensures Mentions(IssueIf(failed, issue), word) <==> failed && Contains(issue, word)
  {
    if failed {
      assert IssueIf(failed, issue)[0] == issue;
    }
  }

  /** The issues mention `word` exactly when some failed check's issue
      text does. */
  lemma {:induction false} IssuesMentionWord(vague: bool, complete: bool, balanced: bool, executable: bool, word: string)
    ensures Mentions(IssuesOf(vague, complete, balanced, executable), word) <==>
      (vague && Contains(VagueIssue, word)) || (!complete && Contains(MissingIssue, word))
      || (!balanced && Contains(UnbalancedIssue, word)) || (!executable && Contains(InoperableIssue, word))
  {
    var v, m, u, o := IssueIf(vague, VagueIssue), IssueIf(!complete, MissingIssue),
      IssueIf(!balanced, UnbalancedIssue), IssueIf(!executable, InoperableIssue);
    MentionsAppend(v + m + u, o, word);
    MentionsAppend(v + m, u, word);
    MentionsAppend(v, m, word);
    MentionsIssueIf(vague, VagueIssue, word);
    MentionsIssueIf(!complete, MissingIssue, word);
    MentionsIssueIf(!balanced, UnbalancedIssue, word);
    MentionsIssueIf(!executable, InoperableIssue, word);
  }

  /** Some issue mentions vagueness exactly when the clause was found
      vague, and some issue mentions imbalance exactly when it was found
      unbalanced. */
  lemma IssuesMention(vague: bool, complete: bool, balanced: bool, executable: bool)
    ensures Mentions(IssuesOf(vague, complete, balanced, executable), "模糊") <==> vague
    ensures Mentions(IssuesOf(vague, complete, balanced, executable), "不平衡") <==> !balanced
  {
    IssuesMentionWord(vague, complete, balanced, executable, "模糊");
    IssuesMentionWord(vague, complete, balanced, executable, "不平衡");
    VagueIssueIsVague();
    UnbalancedIssueIsUnbalanced();
    MissingIssueNotVague();
    UnbalancedIssueNotVague();
    InoperableIssueNotVague();
    VagueIssueNotUnbalanced();
    MissingIssueNotUnbalanced();
    InoperableIssueNotUnbalanced();
  }

  /** For the issues of a clause the notes follow the checks: the note
      against vagueness exactly when the clause is vague, the note on
      reciprocity exactly when it is unbalanced. */
  lemma SuggestionFollowsChecks(text: string, clauseType: string)
    ensures ClauseSuggestion(clauseType, ClauseIssues(text, clauseType)) ==
      SuggestionBase(clauseType) + (if IsVague(text) then VagueNote else "")
      + (if !IsBalanced(text) then BalanceNote else "")
  {
    IssuesMention(IsVague(text), HasKeyElements(text, clauseType), IsBalanced(text), IsExecutable(text));
  }

  // Which issue texts mention vagueness and which mention imbalance.

  lemma VagueIssueIsVague()
    ensures Contains(VagueIssue, "模糊")
  {
    assert VagueIssue[4..][..2] == "模糊";
    ContainsAt(VagueIssue, "模糊", 4);
  }

  lemma UnbalancedIssueIsUnbalanced()
    ensures Contains(UnbalancedIssue, "不平衡")
  {
    assert UnbalancedIssue[4..][..3] == "不平衡";
    ContainsAt(UnbalancedIssue, "不平衡", 4);
  }

  lemma MissingIssueNotVague()
    ensures !Contains(MissingIssue, "模糊")
  {
    NotContainsChar(MissingIssue, "模糊", 1);
  }

  lemma UnbalancedIssueNotVague()
    ensures !Contains(UnbalancedIssue, "模糊")
  {
    NotContainsChar(UnbalancedIssue, "模糊", 1);
  }

  lemma InoperableIssueNotVague()
    ensures !Contains(InoperableIssue, "模糊")
  {
    NotContainsChar(InoperableIssue, "模糊", 1);
  }

  lemma VagueIssueNotUnbalanced()
    ensures !Contains(VagueIssue, "不平衡")
  {
    NotContainsChar(VagueIssue, "不平衡", 2);
  }

  lemma MissingIssueNotUnbalanced()
    ensures !Contains(MissingIssue, "不平衡")
  {
    NotContainsChar(MissingIssue, "不平衡", 2);
  }

  lemma InoperableIssueNotUnbalanced()
    ensures !Contains(InoperableIssue, "不平衡")
  {
    NotContainsChar(InoperableIssue, "不平衡", 2);
  }

  datatype ClauseScore = ClauseScore(score: nat, level: string, issues: seq<string>, suggestion: string)

  /** Scores a clause by the four checks; the contract type plays no
      part. */
  method CalculateClauseRiskScore(clauseText: string, clauseType: string, contractType: string)
    returns (result: ClauseScore)
    ensures result.score == ClauseScoreOf(clauseText, clauseType)
    ensures result.issues == ClauseIssues(clauseText, clauseType)
    ensures result.level == ClauseLevel(result.score)
    ensures result.suggestion == ClauseSuggestion(clauseType, result.issues)
  {
    var score, issues := CollectIssues(IsVague(clauseText), HasKeyElements(clauseText, clauseType),
      IsBalanced(clauseText), IsExecutable(clauseText));
    var level := if score >= 80 then Fatal else if score >= 50 then Important else if score >= 20 then General else Minor;
    result := ClauseScore(score, level, issues, ClauseSuggestion(clauseType, issues));
  }

  /** The four checks in order, each failed one adding its weight and its
      issue. */
  method CollectIssues(vague: bool, complete: bool, balanced: bool, executable: bool)
    returns (score: nat, issues: seq<string>)
    ensures score == ScoreOf(vague, complete, balanced, executable)
    ensures issues == IssuesOf(vague, complete, balanced, executable)
  {
    score := 0;
    issues := [];
    if vague {
      score := score + 30;
      issues := issues + [VagueIssue];
    }
    if !complete {
      score := score + 40;
      issues := issues + [MissingIssue];
    }
    if !balanced {
      score := score + 20;
      issues := issues + [UnbalancedIssue];
    }
    if !executable {
      score := score + 25;
      issues := issues + [InoperableIssue];
    }
  }
}
