/** The three-dimension review (commercial, legal, practical) and the
    four-step method: each analyzer runs a fixed battery of independent
    probes over the contract text and collects findings, risks and
    suggestions. */
module SanguanAnalysis {
  import opened Wrappers
  import opened Text
  import opened ReviewConfig
  import opened Analysis
  import opened Patterns

  /** The caller's context; each key may be absent. */
  datatype UserContext = UserContext(position: Option<string>, focus: Option<string>, history: Option<string>)

  const Weak := "弱势"

  // ---------------------------------------------------------------------
  // Parties and price terms: `(labels)[：:]\s*([^\n]+)`

  const Roles := ["甲方", "乙方", "丙方", "委托方", "受托方"]
  const PriceLabels := ["总价款", "价款", "价格", "费用", "报酬"]

  /** `label: value` with the value stripped. */
  function LabelText(m: Labelled): string {
    m.key + ": " + Strip(m.value)
  }

  /** The parties: one `role: name` per match, in text order, each
      starting with one of the roles. */
  function Parties(text: string): (parties: seq<string>)
    ensures |parties| == |FindLabelled(Roles, text, 0)|
    ensures forall k :: 0 <= k < |parties| ==>
      exists r :: r in Roles && IsPrefix(r + ": ", parties[k])
  {
    var matches := FindLabelled(Roles, text, 0);
    var parties := seq(|matches|, k requires 0 <= k < |matches| => LabelText(matches[k]));
    assert forall k :: 0 <= k < |parties| ==> IsPrefix(matches[k].key + ": ", parties[k]);
    parties
  }

  /** No party is found exactly when no position starts a role label
      followed by a colon and a name. */
  lemma PartiesEmpty(text: string)
    ensures Parties(text) == [] <==> forall p :: 0 <= p < |text| ==> LabelAt(Roles, text, p).None?
  {
    FindLabelledEmpty(Roles, text, 0);
  }

  /** The whitespace after the colon may span a line break, so a name on
      the next line is still captured. */
  lemma NameAfterLineBreak()
    ensures Parties("甲方：\n A公司") == ["甲方: A公司"]
  {
    var t := "甲方：\n A公司";
    assert SpaceEnd(t, 3) == 5;
    assert LineEnd(t, 5) == 8;
    assert ValueAt(t, 2) == Some((5, 8));
    assert LabelAt(Roles, t, 0) == Some(Hit("甲方", 5, 8));
    assert FindLabelled(Roles, t, 8) == [];
    assert t[5..8] == "A公司";
    assert FindLabelled(Roles, t, 0) == [Labelled("甲方", "A公司")];
    assert Strip("A公司") == "A公司";
    assert LabelText(Labelled("甲方", "A公司")) == "甲方: A公司";
  }

  /** When only whitespace follows the colon to the end of the text, the
      whitespace gives back a space for the name, which strips to
      nothing. */
  lemma BlankNameAtEnd()
    ensures Parties("甲方： \n") == ["甲方: "]
  {
    var t := "甲方： \n";
    assert IsPrefix("甲方", t[0..]);
    assert SpaceEnd(t, 3) == 5;
    assert LastNotNewline(t, 3, 5) == Some(3);
    assert LineEnd(t, 3) == 4;
    assert ValueAt(t, 2) == Some((3, 4));
    assert LabelAt(Roles, t, 0) == Some(Hit("甲方", 3, 4));
    assert LabelAt(Roles, t, 4) == None;
    assert FindLabelled(Roles, t, 4) == [];
    assert t[3..4] == " ";
    assert FindLabelled(Roles, t, 0) == [Labelled("甲方", " ")];
    assert Strip(" ") == "";
    assert LabelText(Labelled("甲方", " ")) == "甲方: ";
  }

  method ExtractParties(text: string) returns (parties: seq<string>)
    ensures parties == Parties(text)
  {
    var matches := FindLabelled(Roles, text, 0);
    parties := [];
    var i := 0;
    while i < |matches|
      invariant 0 <= i <= |matches|
      invariant parties == Parties(text)[..i]
    {
      parties := parties + [LabelText(matches[i])];
      i := i + 1;
    }
  }

  /** The first price term as `label: value`, or "" when there is none. */
  function PriceTerms(text: string): (terms: string)
    ensures terms == "" <==> FindLabelled(PriceLabels, text, 0) == []
    ensures terms != "" ==> exists l :: l in PriceLabels && IsPrefix(l + ": ", terms)
  {
    var matches := FindLabelled(PriceLabels, text, 0);
    if matches == [] then ""
    else
      assert IsPrefix(matches[0].key + ": ", LabelText(matches[0]));
      LabelText(matches[0])
  }

  // ---------------------------------------------------------------------
  // Essential clauses

  const DefaultEssentials := ["标的", "价款", "履行期限"]

  /** The clauses a contract type requires: exact lookup, with a default
      list for every other type. */
  function EssentialFor(contractType: string): (required: seq<string>)
    ensures |required| == 3
  {
    if contractType == "买卖合同" then ["标的", "数量", "价款"]
    else if contractType == "租赁合同" then ["租赁物", "租金", "租赁期限"]
    else if contractType == "借款合同" then ["借款金额", "利率", "还款期限"]
    else DefaultEssentials
  }

  method CheckEssentialClauses(text: string, contractType: string) returns (found: seq<string>, missing: seq<string>)
    ensures found == Kept(EssentialFor(contractType), text, true)
    ensures missing == Kept(EssentialFor(contractType), text, false)
  {
    var required := EssentialFor(contractType);
    found, missing := [], [];
    var i := 0;
    while i < |required|
      invariant 0 <= i <= |required|
      invariant found == Kept(required[..i], text, true)
      invariant missing == Kept(required[..i], text, false)
    {
      assert required[..i + 1][..i] == required[..i];
      if Contains(text, required[i]) {
        found := found + [required[i]];
      } else {
        missing := missing + [required[i]];
      }
      i := i + 1;
    }
    assert required[..i] == required;
  }

  // ---------------------------------------------------------------------
  // Balance of obligations

  /** The balance ratio of two obligation counts: 0.5 when neither party
      has an obligation, otherwise the smaller count over the larger. */
  function BalanceRatio(a: nat, b: nat): real {
    if a + b == 0 then 0.5
    else if a <= b then (a as real) / (b as real)
    else (b as real) / (a as real)
  }

  /** The ratio lies in [0, 1], does not depend on which party is which,
      is 0 exactly when only one party has obligations and 1 exactly when
      both have the same positive number. */
  lemma BalanceRatioProperties(a: nat, b: nat)
    ensures 0.0 <= BalanceRatio(a, b) <= 1.0
    ensures BalanceRatio(a, b) == BalanceRatio(b, a)
    ensures a + b > 0 ==> (BalanceRatio(a, b) == 0.0 <==> a == 0 || b == 0)
    ensures a + b > 0 ==> (BalanceRatio(a, b) == 1.0 <==> a == b)
  {
    if a + b > 0 {
      if a <= b {
        Fraction(a as real, b as real);
      } else {
        Fraction(b as real, a as real);
      }
    }
  }

  /** A fraction of a smaller over a larger positive number. */
  lemma Fraction(p: real, q: real)
    requires 0.0 <= p <= q && q > 0.0
    ensures 0.0 <= p / q <= 1.0
    ensures p / q == 0.0 <==> p == 0.0
    ensures p / q == 1.0 <==> p == q
  {
    var x := p / q;
    assert x * q == p;
  }

  /** The balance of the text: the obligation matches of `甲方` against
      those of `乙方`. It lies in [0, 1], is 0.5 when neither party has
      obligations, and is 1 exactly when both have as many. */
  function AssessBalance(text: string): (r: real)
    ensures 0.0 <= r <= 1.0
    ensures Obligations("甲方", text, 0) + Obligations("乙方", text, 0) == 0 ==> r == 0.5
    ensures Obligations("甲方", text, 0) + Obligations("乙方", text, 0) > 0 ==>
      (r == 1.0 <==> Obligations("甲方", text, 0) == Obligations("乙方", text, 0))
    ensures Obligations("甲方", text, 0) + Obligations("乙方", text, 0) > 0 ==>
      (r == 0.0 <==> Obligations("甲方", text, 0) == 0 || Obligations("乙方", text, 0) == 0)
  {
    BalanceRatioProperties(Obligations("甲方", text, 0), Obligations("乙方", text, 0));
    BalanceRatio(Obligations("甲方", text, 0), Obligations("乙方", text, 0))
  }

  /** Without any `应` or `须` neither party has obligations and the
      balance is the default 0.5. */
  lemma NoDutyWordBalance(text: string)
    requires '应' !in text && '须' !in text
    ensures AssessBalance(text) == 0.5
  {
    NoDutyWordNoObligation("甲方", text, 0);
    NoDutyWordNoObligation("乙方", text, 0);
  }

  // ---------------------------------------------------------------------
  // Vague terms, acceptance and dispute clauses

  const VaguePatterns := ["合理.*时间", "尽快", "适当", "相关", "等(?!.*等.*具体)"]

  /** `re.search` of the `k`-th vague pattern succeeds. */
  predicate PatternFound(k: nat, text: string)
    requires k < 5
  {
    if k == 0 then LineMatch(text, ["合理"], ["时间"])
    else if k == 1 then Contains(text, "尽快")
    else if k == 2 then Contains(text, "适当")
    else if k == 3 then Contains(text, "相关")
    else EtcUnqualified(text)
  }

  /** The first `n` vague patterns that match, in list order. */
  function VagueFound(text: string, n: nat): (found: seq<string>)
    requires n <= 5
    ensures |found| <= n
    ensures found == [] <==> forall k :: 0 <= k < n ==> !PatternFound(k, text)
    ensures forall x :: x in found ==> exists k :: 0 <= k < n && x == VaguePatterns[k] && PatternFound(k, text)
    decreases n
  {
    if n == 0 then []
    else VagueFound(text, n - 1) + (if PatternFound(n - 1, text) then [VaguePatterns[n - 1]] else [])
  }

  /** The last pattern matches every text that contains `等`. */
  lemma EtcPatternFound(text: string)
    ensures PatternFound(4, text) <==> '等' in text
  {
    EtcMatchesAnyEtc(text);
  }

  method FindVagueTerms(text: string) returns (found: seq<string>)
    ensures found == VagueFound(text, 5)
  {
    found := [];
    var k := 0;
    while k < 5
      invariant 0 <= k <= 5
      invariant found == VagueFound(text, k)
    {
      if PatternFound(k, text) {
        found := found + [VaguePatterns[k]];
      }
      k := k + 1;
    }
  }

  const AcceptanceFirsts := ["验收", "检验", "检查", "测试"]
  const AcceptanceSeconds := ["标准", "条件", "要求"]

  /** `(验收|检验|检查|测试).*?(标准|条件|要求)` matches somewhere. */
  predicate HasAcceptance(text: string) {
    LineMatch(text, AcceptanceFirsts, AcceptanceSeconds)
  }

  const DisputeFirsts := ["争议", "纠纷"]
  const DisputeSeconds := ["仲裁", "诉讼", "法院"]

  /** The groups of the first match of `(争议|纠纷).*(仲裁|诉讼|法院)`. */
  function DisputeClause(text: string): Option<(string, string)> {
    FirstPair(text, DisputeFirsts, DisputeSeconds, 0)
  }

  /** A dispute clause is reported exactly when the pattern matches
      somewhere, and its groups are a dispute word and a forum. */
  lemma DisputeClauseFound(text: string)
    ensures DisputeClause(text).Some? <==> LineMatch(text, DisputeFirsts, DisputeSeconds)
    ensures DisputeClause(text).Some? ==>
      DisputeClause(text).value.0 in DisputeFirsts && DisputeClause(text).value.1 in DisputeSeconds
  {
    FirstPairFinds(text, DisputeFirsts, DisputeSeconds, 0);
  }

  /** Python's `str` of a pair of strings. */
  function PairRepr(g: (string, string)): string {
    "('" + g.0 + "', '" + g.1 + "')"
  }

  // ---------------------------------------------------------------------
  // The three dimensions

  function PartyFinding(parties: seq<string>): Finding {
    Finding("交易主体", "识别到交易主体: " + Join(parties, ", "), "重要")
  }

  function PriceFinding(terms: string): Finding {
    Finding("价格条款", "价格条款: " + terms, "关键")
  }

  const WeakPositionRisk := RiskItem(Some("商业风险"), Some("用户处于弱势地位,可能面临不对等条款"),
    Some(Important), Some("重点关注权利义务平衡性,必要时要求调整"))

  function FocusSuggestion(focus: string): Suggestion {
    Suggestion("用户关注点", "用户关注: " + focus + ",审核时应重点审查相关条款")
  }

  /** The commercial dimension, rated 中等: a party finding when parties
      are found, a price finding when a price term is found, a risk when
      the user is in the weak position and a suggestion when a focus is
      given. */
  method AnalyzeCommercialDimension(text: string, ctx: UserContext) returns (a: DimensionAnalysis)
    ensures a.dimension == Some(Commercial) && a.rating == Some("中等")
    ensures a.findings == (if Parties(text) != [] then [PartyFinding(Parties(text))] else [])
      + (if PriceTerms(text) != "" then [PriceFinding(PriceTerms(text))] else [])
    ensures a.risks == (if ctx.position == Some(Weak) then [WeakPositionRisk] else [])
    ensures a.suggestions == (if ctx.focus.GetOr("") != "" then [FocusSuggestion(ctx.focus.GetOr(""))] else [])
    ensures (|a.findings| > 0 && a.findings[0].category == "交易主体") <==>
      exists p :: 0 <= p < |text| && LabelAt(Roles, text, p).Some?
  {
    a := DimensionAnalysis(Some(Commercial), Some("中等"), [], [], []);
    var parties := ExtractParties(text);
    var priceTerms := PriceTerms(text);
    if parties != [] {
      a := a.(findings := a.findings + [PartyFinding(parties)]);
    }
    assert a.findings == if parties != [] then [PartyFinding(parties)] else [];
    if ctx.position == Some(Weak) {
      a := a.(risks := a.risks + [WeakPositionRisk]);
    }
    if priceTerms != "" {
      a := a.(findings := a.findings + [PriceFinding(priceTerms)]);
    }
    assert a.findings == (if parties != [] then [PartyFinding(parties)] else [])
      + (if priceTerms != "" then [PriceFinding(priceTerms)] else []);
    var focus := ctx.focus.GetOr("");
    if focus != "" {
      a := a.(suggestions := a.suggestions + [FocusSuggestion(focus)]);
    }
    PartiesEmpty(text);
  }

  function TypeFinding(contractType: string): Finding {
    Finding("合同类型", "识别为: " + contractType, "基础")
  }

  function MissingRisk(missing: seq<string>): RiskItem {
    RiskItem(Some(Fatal), Some("缺少必要条款: " + Join(missing, ", ")), Some(Fatal),
      Some("必须补充,否则合同可能无法履行或产生争议"))
  }

  const ImbalanceRisk := RiskItem(Some(Important), Some("权利义务严重不平衡"), Some(Important),
    Some("建议调整违约责任、解除权等条款,增强平衡性"))

  function ExemptionFinding(n: nat): Finding {
    Finding("免责条款", "发现" + NatToString(n) + "处免责条款", "重要")
  }

  /** The legal dimension, rated 良好: the contract-type finding first, a
      fatal risk naming the missing essential clauses when some is
      missing, an important risk when the balance is below 0.3 and an
      exemption finding when an exemption clause is found. */
  method AnalyzeLegalDimension(text: string, contractType: string) returns (a: DimensionAnalysis)
    ensures a.dimension == Some(Legal) && a.rating == Some("良好")
    ensures |a.findings| >= 1 && a.findings[0] == TypeFinding(contractType)
    ensures a.findings[1..] == (if Exemptions(text, 0) > 0 then [ExemptionFinding(Exemptions(text, 0))] else [])
    ensures a.risks == (if Kept(EssentialFor(contractType), text, false) != []
                        then [MissingRisk(Kept(EssentialFor(contractType), text, false))] else [])
      + (if AssessBalance(text) < 0.3 then [ImbalanceRisk] else [])
    ensures a.suggestions == []
    ensures (|a.risks| > 0 && a.risks[0].level == Some(Fatal)) <==>
      exists k :: 0 <= k < 3 && !Contains(text, EssentialFor(contractType)[k])
  {
    a := DimensionAnalysis(Some(Legal), Some("良好"), [TypeFinding(contractType)], [], []);
    var found, missing := CheckEssentialClauses(text, contractType);
    if missing != [] {
      a := a.(risks := a.risks + [MissingRisk(missing)]);
    }
    var balanceScore := AssessBalance(text);
    if balanceScore < 0.3 {
      a := a.(risks := a.risks + [ImbalanceRisk]);
    }
    var exemptions := Exemptions(text, 0);
    if exemptions > 0 {
      a := a.(findings := a.findings + [ExemptionFinding(exemptions)]);
    }
    NoneAbsent(EssentialFor(contractType), text);
  }

  function VagueRisk(n: nat): RiskItem {
    RiskItem(Some(General), Some("发现" + NatToString(n) + "处模糊表述"), Some(General),
      Some("建议明确时间、金额、标准等关键要素"))
  }

  const AcceptanceRisk := RiskItem(Some(Important), Some("缺少明确的验收标准"), Some(Important),
    Some("建议补充具体的验收标准、程序和时间"))

  const NoDisputeRisk := RiskItem(Some(General), Some("未约定争议解决方式"), Some(General),
    Some("建议明确约定仲裁或诉讼管辖"))

  function DisputeFinding(g: (string, string)): Finding {
    Finding("争议解决", "已约定争议解决方式: " + PairRepr(g), "重要")
  }

  /** The practical dimension, rated 良好: a general risk counting the
      vague patterns found, an important risk when no acceptance standard
      is found, and exactly one of a dispute-resolution finding and a
      general risk for its absence. */
  method AnalyzePracticalDimension(text: string) returns (a: DimensionAnalysis)
    ensures a.dimension == Some(Practical) && a.rating == Some("良好")
    ensures a.risks == (if VagueFound(text, 5) != [] then [VagueRisk(|VagueFound(text, 5)|)] else [])
      + (if !HasAcceptance(text) then [AcceptanceRisk] else [])
      + (if DisputeClause(text).None? then [NoDisputeRisk] else [])
    ensures a.findings == (if DisputeClause(text).Some? then [DisputeFinding(DisputeClause(text).value)] else [])
    ensures a.suggestions == []
    ensures a.findings != [] <==> LineMatch(text, DisputeFirsts, DisputeSeconds)
    ensures (a.findings != []) != (NoDisputeRisk in a.risks)
  {
    a := DimensionAnalysis(Some(Practical), Some("良好"), [], [], []);
    var vagueTerms := FindVagueTerms(text);
    if vagueTerms != [] {
      a := a.(risks := a.risks + [VagueRisk(|vagueTerms|)]);
    }
    if !HasAcceptance(text) {
      a := a.(risks := a.risks + [AcceptanceRisk]);
    }
    var dispute := DisputeClause(text);
    if dispute.Some? {
      a := a.(findings := a.findings + [DisputeFinding(dispute.value)]);
    } else {
      a := a.(risks := a.risks + [NoDisputeRisk]);
    }
    DisputeClauseFound(text);
    NoDisputeRiskOnlyOwn(|vagueTerms|);
  }

  /** The risk for a missing dispute clause is neither the vagueness risk
      nor the acceptance risk. */
  lemma NoDisputeRiskOnlyOwn(n: nat)
    ensures NoDisputeRisk != VagueRisk(n) && NoDisputeRisk != AcceptanceRisk
  {
    assert NoDisputeRisk.description.value[0] == '未';
    assert VagueRisk(n).description.value[0] == '发';
  }

  // ---------------------------------------------------------------------
  // The four steps

  datatype Background = Background(parties: seq<string>, marketPosition: string, transactionHistory: string, focus: string)

  datatype MarketRisk = MarketRisk(riskType: string, description: string, mitigation: string)

  /** What each step records that depends on the contract or the context;
      the steps' fixed descriptive texts are not modelled. */
  datatype StepAnalysis =
    | Understanding(background: Background, keyRisks: seq<MarketRisk>)
    | Structure(stages: seq<string>, transactionParties: seq<string>)
    | Drafting(balanceScore: real)
    | Reviewing

  datatype Step = Step(name: string, analysis: StepAnalysis)

  datatype FourSteps = FourSteps(methodName: string, steps: seq<Step>)

  const StepNames := ["第一步: 理解交易", "第二步: 设计结构 (宏观层面)", "第三步: 起草合同 (中观层面)", "第四步: 审查完善 (微观层面)"]

  const TransactionStages := ["签约", "履行", "验收", "付款", "质保"]

  /** The key commercial risks: one market-position risk exactly when the
      user is in the weak position. */
  function KeyCommercialRisks(ctx: UserContext): (risks: seq<MarketRisk>)
    ensures risks != [] <==> ctx.position == Some(Weak)
  {
    if ctx.position == Some(Weak) then
      [MarketRisk("市场地位风险", "处于弱势地位,可能接受不利条款", "争取平衡关键条款,引入第三方担保")]
    else []
  }

  /** The four steps in their fixed order: understanding the transaction
      (parties and the caller's context, with its defaults), designing the
      structure (the stages and the parties again), drafting (the balance
      score) and reviewing. */
  method ApplySanguanFourSteps(text: string, ctx: UserContext) returns (r: FourSteps)
    ensures r.methodName == "三观四步法" && |r.steps| == 4
    ensures forall k :: 0 <= k < 4 ==> r.steps[k].name == StepNames[k]
    ensures r.steps[0].analysis == Understanding(
      Background(Parties(text), ctx.position.GetOr("未知"), ctx.history.GetOr("无"), ctx.focus.GetOr("未明确")),
      KeyCommercialRisks(ctx))
    ensures r.steps[1].analysis == Structure(TransactionStages, Parties(text))
    ensures r.steps[2].analysis == Drafting(AssessBalance(text))
    ensures r.steps[3].analysis == Reviewing
  {
    r := FourSteps("三观四步法", []);
    var parties := ExtractParties(text);
    var background := Background(parties, ctx.position.GetOr("未知"), ctx.history.GetOr("无"), ctx.focus.GetOr("未明确"));
    r := r.(steps := r.steps + [Step(StepNames[0], Understanding(background, KeyCommercialRisks(ctx)))]);
    var transactionParties := ExtractParties(text);
    r := r.(steps := r.steps + [Step(StepNames[1], Structure(TransactionStages, transactionParties))]);
    r := r.(steps := r.steps + [Step(StepNames[2], Drafting(AssessBalance(text)))]);
    r := r.(steps := r.steps + [Step(StepNames[3], Reviewing)]);
  }
}
