/** Review depth: the three fixed review profiles, the clause-category
    filter and the severity filter a profile implies. */
module ReviewConfig {
  import opened Text
  import opened Wrappers

  /** The clauses a profile reviews: every clause, or the clauses whose
      category fuzzily matches one of the listed targets. */
  datatype ClauseScope = All | Only(targets: seq<string>)

  datatype Profile = Profile(
    name: string,
    timeEstimate: string,
    focus: string,
    checkCategories: seq<string>,
    clausesToReview: ClauseScope,
    detailLevel: string)

  /** A constructed review configuration. It is a value: its profile is
      fixed when it is built and nothing changes it afterwards. */
  datatype Config = Config(depth: string, config: Profile)

  const Fatal := "致命风险"
  const Important := "重要风险"
  const General := "一般风险"
  const Minor := "轻微瑕疵"

  /** The four severities, most severe first. */
  const Severities := [Fatal, Important, General, Minor]

  lemma SeveritiesDistinct()
    ensures Fatal != Important && Fatal != General && Fatal != Minor
    ensures Important != General && Important != Minor && General != Minor
  {
    assert Fatal[0] != Important[0] && Fatal[0] != General[0] && Fatal[0] != Minor[0];
    assert Important[0] != General[0] && Important[0] != Minor[0] && General[0] != Minor[0];
  }

  const QuickProfile := Profile("快速审核", "5-10分钟", "核心条款和重大风险",
    [Fatal, Important],
    Only(["标的", "价款", "违约责任", "解除条款"]),
    "简略")

  const StandardProfile := Profile("标准审核", "30-60分钟", "全面审核主要条款",
    [Fatal, Important, General],
    Only(["标的", "数量质量", "价款", "履行", "违约责任",
          "解除终止", "不可抗力", "担保保险", "争议解决"]),
    "标准")

  const DeepProfile := Profile("深度审核", "1-2小时", "逐条审核所有条款",
    [Fatal, Important, General, Minor],
    All,
    "详细")

  const DepthLevels: map<string, Profile> :=
    map["quick" := QuickProfile, "standard" := StandardProfile, "deep" := DeepProfile]

  /** The depth used when the caller names none. */
  const DefaultDepth := "standard"

  function InvalidDepthMessage(depth: string): string {
    "无效的审核深度: " + depth + "，必须是 'quick', 'standard', 或 'deep'"
  }

  /** A configuration is well formed when its profile is the one its depth
      names. */
  predicate Valid(cfg: Config) {
    cfg.depth in DepthLevels && cfg.config == DepthLevels[cfg.depth]
  }

  /** Building a configuration: an unknown depth is an error whose message
      quotes the depth; a known one selects its profile. */
  function NewConfig(depth: string): (r: Result<Config, string>)
    ensures r.Success? <==> depth == "quick" || depth == "standard" || depth == "deep"
    ensures r.Success? ==> Valid(r.value) && r.value.depth == depth
    ensures r.Failure? ==> Contains(r.error, depth)
  {
    if depth in DepthLevels then Success(Config(depth, DepthLevels[depth]))
    else
      var msg := InvalidDepthMessage(depth);
      assert msg[|"无效的审核深度: "|..][..|depth|] == depth;
      ContainsAt(msg, depth, |"无效的审核深度: "|);
      Failure(msg)
  }

  lemma DefaultDepthIsValid()
    ensures NewConfig(DefaultDepth).Success?
    ensures NewConfig(DefaultDepth).value.config.clausesToReview == StandardProfile.clausesToReview
  {
  }

  /** The review scope is the selected profile. */
  function GetReviewScope(cfg: Config): (scope: Profile)
    ensures Valid(cfg) ==> scope == DepthLevels[cfg.depth]
  {
    cfg.config
  }

  function GetDetailLevel(cfg: Config): (level: string)
    ensures Valid(cfg) ==> level == DepthLevels[cfg.depth].detailLevel
  {
    cfg.config.detailLevel
  }

  /** The fuzzy match between a target and a clause category: either is a
      substring of the other. */
  predicate Matches(target: string, clauseType: string) {
    Contains(clauseType, target) || Contains(target, clauseType)
  }

  /** The search over the targets, stopping at the first one that matches. */
  function AnyMatch(targets: seq<string>, clauseType: string): (found: bool)
    ensures found <==> exists i :: 0 <= i < |targets| && Matches(targets[i], clauseType)
    decreases |targets|
  {
    if targets == [] then false
    else if Matches(targets[0], clauseType) then true
    else
      assert forall i :: 1 <= i < |targets| ==> targets[i] == targets[1..][i - 1];
      AnyMatch(targets[1..], clauseType)
  }

  /** Whether clauses of a category are reviewed: always under `All`,
      otherwise exactly when some target matches the category. */
  function ShouldCheckClause(cfg: Config, clauseType: string): (check: bool)
    ensures cfg.config.clausesToReview.All? ==> check
    ensures cfg.config.clausesToReview.Only? ==>
      (check <==> exists i :: 0 <= i < |cfg.config.clausesToReview.targets|
                    && Matches(cfg.config.clausesToReview.targets[i], clauseType))
  {
    match cfg.config.clausesToReview
    case All => true
    case Only(targets) => AnyMatch(targets, clauseType)
  }

  /** Whether risks of a severity are reported: membership in the profile's
      categories. */
  function ShouldReportRisk(cfg: Config, riskLevel: string): (report: bool)
    ensures report <==> exists i :: 0 <= i < |cfg.config.checkCategories| && cfg.config.checkCategories[i] == riskLevel
  {
    riskLevel in cfg.config.checkCategories
  }

  /** The deep profile reviews every clause category. */
  lemma DeepChecksEverything(clauseType: string)
    ensures ShouldCheckClause(NewConfig("deep").value, clauseType)
  {
  }

  /** Each deeper profile reports every severity the shallower one reports;
      the deep profile reports exactly the four severities. */
  lemma ReportMonotone(level: string)
    ensures ShouldReportRisk(NewConfig("quick").value, level) ==> ShouldReportRisk(NewConfig("standard").value, level)
    ensures ShouldReportRisk(NewConfig("standard").value, level) ==> ShouldReportRisk(NewConfig("deep").value, level)
    ensures ShouldReportRisk(NewConfig("deep").value, level) <==> level in {Fatal, Important, General, Minor}
  {
  }

  /** Quick review checks `标的` clauses and skips `保密` clauses. */
  lemma QuickExamples()
    ensures ShouldCheckClause(NewConfig("quick").value, "标的")
    ensures !ShouldCheckClause(NewConfig("quick").value, "保密")
  {
    var cfg := NewConfig("quick").value;
    assert Matches("标的", "标的");
    forall i | 0 <= i < 4 ensures !Matches(QuickProfile.clausesToReview.targets[i], "保密") {
      var t := QuickProfile.clausesToReview.targets[i];
      NotContainsChar("保密", t, 0);
      NotContainsChar(t, "保密", 0);
    }
  }
}
