/** Risk assessment: looking a clause up in the risk-template table,
    flagging the templates whose keywords the clause does not cover, the
    score-to-severity thresholds and the report grouped by severity. */
module RiskAssessment {
  import opened Wrappers
  import opened Text
  import opened ReviewConfig

  // ---------------------------------------------------------------------
  // Templates and the risks reported for a clause

  /** A row of the risk-template table; an empty cell is `None`. */
  datatype RiskTemplate = RiskTemplate(
    riskId: Option<string>,
    contractType: Option<string>,
    clauseName: Option<string>,
    riskType: Option<string>,
    riskDescription: Option<string>,
    legalBasis: Option<string>,
    modificationSuggestion: Option<string>,
    impactAnalysis: Option<string>)

  /** A reported risk: the fields copied from its template. */
  datatype Risk = Risk(
    riskId: Option<string>,
    riskType: string,
    description: string,
    legalBasis: Option<string>,
    suggestion: Option<string>,
    impact: Option<string>)

  /** The word that makes a template apply to every contract type or every
      clause. */
  const Generic := "通用"

  /** The error raised when an empty cell is split: pandas reads an empty
      cell as a floating-point NaN, which has no `split`. A template to be
      assessed without a description raises it. */
  const SplitOnEmptyCell := "'float' object has no attribute 'split'"

  /** A case-insensitive substring test on a cell; an empty cell never
      matches. */
  predicate FieldContains(field: Option<string>, pattern: string) {
    field.Some? && Contains(Lower(field.value), Lower(pattern))
  }

  /** A template applies when its contract type names the contract type or
      is generic, and its clause name names the clause type or is generic. */
  predicate Relevant(t: RiskTemplate, clauseType: string, contractType: string) {
    (FieldContains(t.contractType, contractType) || FieldContains(t.contractType, Generic))
    && (FieldContains(t.clauseName, clauseType) || FieldContains(t.clauseName, Generic))
  }

  /** The configuration reports the template's severity (an empty severity
      is never reported). */
  predicate Reported(cfg: Config, t: RiskTemplate) {
    t.riskType.Some? && ShouldReportRisk(cfg, t.riskType.value)
  }

  /** The keywords of a description: its first three `、`-separated pieces. */
  function Tokens(description: string): (tokens: seq<string>)
    ensures 1 <= |tokens| <= 3
    ensures |tokens| == Min(3, |Split(description, '、')|)
    ensures forall k :: 0 <= k < |tokens| ==> tokens[k] == Split(description, '、')[k]
  {
    var parts := Split(description, '、');
    parts[..Min(3, |parts|)]
  }

  /** A template is flagged when fewer than half of its keywords occur in
      the clause. */
  predicate Flagged(description: string, clauseText: string) {
    2 * CountPresent(Tokens(description), clauseText) < |Tokens(description)|
  }

  /** The flag rule with three keywords or more pieces: at most one of the
      first three may occur. */
  lemma FlagRuleThree(description: string, clauseText: string)
    requires |Split(description, '、')| >= 3
    ensures Flagged(description, clauseText) <==> CountPresent(Tokens(description), clauseText) <= 1
  {
  }

  /** The flag rule with one or two pieces: none of them may occur. */
  lemma FlagRuleFew(description: string, clauseText: string)
    requires |Split(description, '、')| < 3
    ensures Flagged(description, clauseText) <==>
      forall k :: 0 <= k < |Split(description, '、')| ==> !Contains(clauseText, Split(description, '、')[k])
  {
    var parts := Split(description, '、');
    assert Tokens(description) == parts;
    assert Flagged(description, clauseText) <==> CountPresent(parts, clauseText) == 0;
  }

  function RiskOf(t: RiskTemplate, riskType: string, description: string): Risk {
    Risk(t.riskId, riskType, description, t.legalBasis, t.modificationSuggestion, t.impactAnalysis)
  }

  /** The outcome of one template: nothing when it does not apply or its
      severity is not reported, the error when it has no description, and
      otherwise its risk exactly when it is flagged. */
  function AssessOne(cfg: Config, t: RiskTemplate, clauseText: string, clauseType: string, contractType: string)
    : (r: Result<seq<Risk>, string>)
    ensures r.Failure? <==> Relevant(t, clauseType, contractType) && Reported(cfg, t) && t.riskDescription.None?
    ensures r.Success? ==> |r.value| <= 1
    ensures r.Success? && r.value != [] <==>
      Relevant(t, clauseType, contractType) && Reported(cfg, t) && t.riskDescription.Some?
      && Flagged(t.riskDescription.value, clauseText)
    ensures r.Success? && r.value != [] ==>
      r.value[0].riskId == t.riskId && Some(r.value[0].riskType) == t.riskType
      && Some(r.value[0].description) == t.riskDescription
  {
    if !Relevant(t, clauseType, contractType) || !Reported(cfg, t) then Success([])
    else match t.riskDescription
      case None => Failure(SplitOnEmptyCell)
      case Some(d) => if Flagged(d, clauseText) then Success([RiskOf(t, t.riskType.value, d)]) else Success([])
  }

  /** Two outcomes in sequence: the first error wins. */
  function Then(a: Result<seq<Risk>, string>, b: Result<seq<Risk>, string>): Result<seq<Risk>, string> {
    match a
    case Failure(e) => a
    case Success(x) => match b
      case Failure(e) => b
      case Success(y) => Success(x + y)
  }

  lemma ThenAssoc(a: Result<seq<Risk>, string>, b: Result<seq<Risk>, string>, c: Result<seq<Risk>, string>)
    ensures Then(Then(a, b), c) == Then(a, Then(b, c))
  {
    if a.Success? && b.Success? && c.Success? {
      assert a.value + b.value + c.value == a.value + (b.value + c.value);
    }
  }

  lemma ThenUnit(a: Result<seq<Risk>, string>)
    ensures Then(a, Success([])) == a
  {
    if a.Success? {
      assert a.value + [] == a.value;
    }
  }

  /** The outcome of the templates in table order. */
  function Assessed(cfg: Config, ts: seq<RiskTemplate>, clauseText: string, clauseType: string, contractType: string)
    : Result<seq<Risk>, string>
    decreases |ts|
  {
    if ts == [] then Success([])
    else Then(Assessed(cfg, ts[..|ts| - 1], clauseText, clauseType, contractType),
              AssessOne(cfg, ts[|ts| - 1], clauseText, clauseType, contractType))
  }

  /** Assesses a clause against the template table, in table order. */
  method AssessClauseRisk(cfg: Config, templates: seq<RiskTemplate>, clauseText: string, clauseType: string,
                          contractType: string) returns (result: Result<seq<Risk>, string>)
    ensures result == Assessed(cfg, templates, clauseText, clauseType, contractType)
  {
    var risks: seq<Risk> := [];
    var i := 0;
    while i < |templates|
      invariant 0 <= i <= |templates|
      invariant Assessed(cfg, templates[..i], clauseText, clauseType, contractType) == Success(risks)
    {
      var t := templates[i];
      assert templates[..i + 1][..i] == templates[..i] && templates[..i + 1][i] == t;
      assert Assessed(cfg, templates[..i + 1], clauseText, clauseType, contractType)
          == Then(Success(risks), AssessOne(cfg, t, clauseText, clauseType, contractType));
      ThenUnit(Success(risks));
      if Relevant(t, clauseType, contractType) && Reported(cfg, t) {
        if t.riskDescription.None? {
          AssessedFrom(cfg, templates, i, clauseText, clauseType, contractType);
          return Failure(SplitOnEmptyCell);
        }
        var keywords := Tokens(t.riskDescription.value);
        var matched := CountPresent(keywords, clauseText);
        if 2 * matched < |keywords| {
          risks := risks + [RiskOf(t, t.riskType.value, t.riskDescription.value)];
        }
      }
      i := i + 1;
    }
    assert templates[..i] == templates;
    result := Success(risks);
  }

  /** Once a template fails, the whole table fails with its error. */
  lemma AssessedFrom(cfg: Config, ts: seq<RiskTemplate>, i: nat, clauseText: string, clauseType: string, contractType: string)
    requires i < |ts|
    requires Assessed(cfg, ts[..i], clauseText, clauseType, contractType).Success?
    requires AssessOne(cfg, ts[i], clauseText, clauseType, contractType) == Failure(SplitOnEmptyCell)
    ensures Assessed(cfg, ts, clauseText, clauseType, contractType) == Failure(SplitOnEmptyCell)
  {
    assert ts == ts[..i + 1] + ts[i + 1..];
    assert ts[..i + 1][..i] == ts[..i];
    AssessedAppend(cfg, ts[..i + 1], ts[i + 1..], clauseText, clauseType, contractType);
  }

  /** Assessing a table in two parts and chaining the outcomes is assessing
      the whole table. */
  lemma {:induction false} AssessedAppend(cfg: Config, a: seq<RiskTemplate>, b: seq<RiskTemplate>,
                                          clauseText: string, clauseType: string, contractType: string)
    ensures Assessed(cfg, a + b, clauseText, clauseType, contractType)
         == Then(Assessed(cfg, a, clauseText, clauseType, contractType),
                 Assessed(cfg, b, clauseText, clauseType, contractType))
    decreases |b|
  {
    if b == [] {
      assert a + b == a;
      ThenUnit(Assessed(cfg, a, clauseText, clauseType, contractType));
    } else {
      var n := |b| - 1;
      assert (a + b)[..|a + b| - 1] == a + b[..n] && (a + b)[|a + b| - 1] == b[n];
      AssessedAppend(cfg, a, b[..n], clauseText, clauseType, contractType);
      ThenAssoc(Assessed(cfg, a, clauseText, clauseType, contractType),
                Assessed(cfg, b[..n], clauseText, clauseType, contractType),
                AssessOne(cfg, b[n], clauseText, clauseType, contractType));
    }
  }

  /** Every reported risk comes from a template that applies, whose
      severity the configuration reports, that has a description and is
      flagged; the risk copies that template's fields. */
  lemma {:induction false} AssessedSound(cfg: Config, ts: seq<RiskTemplate>, clauseText: string, clauseType: string,
                                         contractType: string)
    requires Assessed(cfg, ts, clauseText, clauseType, contractType).Success?
    ensures var rs := Assessed(cfg, ts, clauseText, clauseType, contractType).value;
      |rs| <= |ts|
      && forall r :: r in rs ==>
        (ShouldReportRisk(cfg, r.riskType)
         && exists i :: 0 <= i < |ts| && Relevant(ts[i], clauseType, contractType) && Reported(cfg, ts[i])
                       && ts[i].riskDescription == Some(r.description) && Flagged(r.description, clauseText)
                       && r == RiskOf(ts[i], ts[i].riskType.value, r.description))
    decreases |ts|
  {
    if ts != [] {
      var n := |ts| - 1;
      AssessedSound(cfg, ts[..n], clauseText, clauseType, contractType);
      assert forall i :: 0 <= i < n ==> ts[..n][i] == ts[i];
    }
  }

  /** Every template that applies, is reported and is flagged yields its
      risk. */
  lemma {:induction false} AssessedComplete(cfg: Config, ts: seq<RiskTemplate>, clauseText: string, clauseType: string,
                                            contractType: string, i: nat)
    requires Assessed(cfg, ts, clauseText, clauseType, contractType).Success?
    requires i < |ts| && Relevant(ts[i], clauseType, contractType) && Reported(cfg, ts[i])
    ensures ts[i].riskDescription.Some?
    ensures Flagged(ts[i].riskDescription.value, clauseText) ==>
      RiskOf(ts[i], ts[i].riskType.value, ts[i].riskDescription.value)
        in Assessed(cfg, ts, clauseText, clauseType, contractType).value
    decreases |ts|
  {
    var n := |ts| - 1;
    if i < n {
      AssessedComplete(cfg, ts[..n], clauseText, clauseType, contractType, i);
    }
  }

  /** The assessment fails exactly when some template that applies and is
      reported has no description. */
  lemma {:induction false} AssessedFails(cfg: Config, ts: seq<RiskTemplate>, clauseText: string, clauseType: string,
                                         contractType: string)
    ensures Assessed(cfg, ts, clauseText, clauseType, contractType).Failure? <==>
      exists i :: 0 <= i < |ts| && Relevant(ts[i], clauseType, contractType) && Reported(cfg, ts[i])
                  && ts[i].riskDescription.None?
    ensures Assessed(cfg, ts, clauseText, clauseType, contractType).Failure? ==>
      Assessed(cfg, ts, clauseText, clauseType, contractType).error == SplitOnEmptyCell
    decreases |ts|
  {
    if ts != [] {
      var n := |ts| - 1;
      AssessedFails(cfg, ts[..n], clauseText, clauseType, contractType);
      assert forall i :: 0 <= i < n ==> ts[..n][i] == ts[i];
    }
  }

  // ---------------------------------------------------------------------
  // Severity thresholds

  /** The position of a severity from the least severe (0) up. */
  function SeverityRank(level: string): nat {
    if level == Fatal then 3
    else if level == Important then 2
    else if level == General then 1
    else 0
  }

  /** The severity of a score out of 100: 80 and above is fatal, 60 and
      above important, 40 and above general, anything lower minor. */
  function ClassifyRiskLevel(score: real): (level: string)
    ensures level in Severities
    ensures SeverityRank(level) == if score >= 80.0 then 3 else if score >= 60.0 then 2 else if score >= 40.0 then 1 else 0
  {
    if score >= 80.0 then Fatal
    else if score >= 60.0 then Important
    else if score >= 40.0 then General
    else Minor
  }

  /** A lower score never gets a higher severity. */
  lemma ClassifyMonotone(lower: real, higher: real)
    requires lower <= higher
    ensures SeverityRank(ClassifyRiskLevel(lower)) <= SeverityRank(ClassifyRiskLevel(higher))
  {
  }

  // ---------------------------------------------------------------------
  // Report

  datatype Bucket = Bucket(level: string, risks: seq<Risk>)
  datatype LevelCount = LevelCount(level: string, count: nat)

  /** The risks of each severity, their numbers and the number of all risks. */
  datatype RiskReport = RiskReport(summary: seq<LevelCount>, risksByLevel: seq<Bucket>, totalRisks: nat)

  /** The risks of a severity, in input order. */
  function OfLevel(risks: seq<Risk>, level: string): (r: seq<Risk>)
    ensures |r| <= |risks|
    ensures forall x :: x in r ==> x in risks && x.riskType == level
    decreases |risks|
  {
    if risks == [] then []
    else
      var last := risks[|risks| - 1];
      OfLevel(risks[..|risks| - 1], level) + (if last.riskType == level then [last] else [])
  }

  lemma OfLevelSnoc(risks: seq<Risk>, x: Risk, level: string)
    ensures OfLevel(risks + [x], level) == OfLevel(risks, level) + (if x.riskType == level then [x] else [])
  {
    assert (risks + [x])[..|risks|] == risks;
  }

  /** The risks whose severity is none of the four. */
  function Unleveled(risks: seq<Risk>): (r: seq<Risk>)
    ensures forall x :: x in r ==> x in risks && x.riskType !in Severities
    decreases |risks|
  {
    if risks == [] then []
    else
      var last := risks[|risks| - 1];
      Unleveled(risks[..|risks| - 1]) + (if last.riskType in Severities then [] else [last])
  }

  /** Groups the risks by severity: all four buckets are always present, in
      the order of `Severities`, and each holds exactly the risks of its
      severity in input order; the summary gives the bucket sizes and the
      total counts every input risk. */
  method GenerateRiskReport(allRisks: seq<Risk>) returns (report: RiskReport)
    ensures |report.risksByLevel| == 4 && |report.summary| == 4
    ensures forall k :: 0 <= k < 4 ==> report.risksByLevel[k] == Bucket(Severities[k], OfLevel(allRisks, Severities[k]))
    ensures forall k :: 0 <= k < 4 ==> report.summary[k] == LevelCount(Severities[k], |report.risksByLevel[k].risks|)
    ensures report.totalRisks == |allRisks|
  {
    var fatal: seq<Risk> := [];
    var important: seq<Risk> := [];
    var general: seq<Risk> := [];
    var minor: seq<Risk> := [];
    var i := 0;
    while i < |allRisks|
      invariant 0 <= i <= |allRisks|
      invariant fatal == OfLevel(allRisks[..i], Fatal) && important == OfLevel(allRisks[..i], Important)
      invariant general == OfLevel(allRisks[..i], General) && minor == OfLevel(allRisks[..i], Minor)
    {
      var risk := allRisks[i];
      assert allRisks[..i + 1] == allRisks[..i] + [risk];
      OfLevelSnoc(allRisks[..i], risk, Fatal);
      OfLevelSnoc(allRisks[..i], risk, Important);
      OfLevelSnoc(allRisks[..i], risk, General);
      OfLevelSnoc(allRisks[..i], risk, Minor);
      if risk.riskType == Fatal {
        fatal := fatal + [risk];
      } else if risk.riskType == Important {
        important := important + [risk];
      } else if risk.riskType == General {
        general := general + [risk];
      } else if risk.riskType == Minor {
        minor := minor + [risk];
      }
      i := i + 1;
    }
    assert allRisks[..i] == allRisks;
    var buckets := [Bucket(Fatal, fatal), Bucket(Important, important), Bucket(General, general), Bucket(Minor, minor)];
    var summary := [LevelCount(Fatal, |fatal|), LevelCount(Important, |important|),
                    LevelCount(General, |general|), LevelCount(Minor, |minor|)];
    report := RiskReport(summary, buckets, |allRisks|);
  }

  /** The bucket sizes and the unleveled risks add up to all risks. */
  lemma {:induction false} BucketsPartition(risks: seq<Risk>)
    ensures |OfLevel(risks, Fatal)| + |OfLevel(risks, Important)| + |OfLevel(risks, General)|
            + |OfLevel(risks, Minor)| + |Unleveled(risks)| == |risks|
    decreases |risks|
  {
    if risks != [] {
      var init := risks[..|risks| - 1];
      var t := risks[|risks| - 1].riskType;
      BucketsPartition(init);
      SeveritiesDistinct();
      assert t in Severities <==> t == Fatal || t == Important || t == General || t == Minor;
    }
  }

  /** The summary never counts more than the total, and counts all of it
      exactly when every risk has one of the four severities. */
  lemma SummaryBound(allRisks: seq<Risk>, report: RiskReport)
    requires |report.summary| == 4
    requires forall k :: 0 <= k < 4 ==> report.summary[k] == LevelCount(Severities[k], |OfLevel(allRisks, Severities[k])|)
    requires report.totalRisks == |allRisks|
    ensures report.summary[0].count + report.summary[1].count + report.summary[2].count + report.summary[3].count
            <= report.totalRisks
    ensures (report.summary[0].count + report.summary[1].count + report.summary[2].count + report.summary[3].count
             == report.totalRisks) <==> forall r :: r in allRisks ==> r.riskType in Severities
  {
    BucketsPartition(allRisks);
    UnleveledEmpty(allRisks);
  }

  lemma {:induction false} UnleveledEmpty(risks: seq<Risk>)
    ensures Unleveled(risks) == [] <==> forall r :: r in risks ==> r.riskType in Severities
    decreases |risks|
  {
    if risks != [] {
      var init := risks[..|risks| - 1];
      UnleveledEmpty(init);
      assert risks == init + [risks[|risks| - 1]];
    }
  }
}
