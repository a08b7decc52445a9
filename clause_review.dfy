/** The clause-standard check: the first standard that applies to a
    clause names the key elements the clause must contain; each element
    it lacks is an issue, and a clause with issues gets one suggestion
    pointing at the standard's template, which is also the revised
    clause. */
module ClauseReview {
  import opened Wrappers
  import opened Text
  import opened RiskAssessment

  /** A row of the clause-standards table; an empty cell is `None`. */
  datatype ClauseStandard = ClauseStandard(
    clauseType: Option<string>,
    contractType: Option<string>,
    keyElements: Option<string>,
    standardTemplate: Option<string>)

  /** The `standard_template` entry of a suggestion: absent, or a cell
      (`None` for an empty cell). */
  datatype TemplateEntry = Absent | Cell(value: Option<string>)

  datatype Suggestion = Suggestion(issue: string, suggestion: string, standardTemplate: TemplateEntry)

  datatype ReviewResult = ReviewResult(clauseType: string, issues: seq<string>, suggestions: seq<Suggestion>, hasIssues: bool)

  /** A standard applies when its clause type contains the clause's type
      and its contract type contains the contract's type or is `通用`,
      both case-insensitively. */
  predicate Applies(s: ClauseStandard, clauseType: string, contractType: string) {
    FieldContains(s.clauseType, clauseType)
    && (FieldContains(s.contractType, contractType) || s.contractType == Some(Generic))
  }

  /** The first standard that applies, if any. */
  function FirstStandard(standards: seq<ClauseStandard>, clauseType: string, contractType: string): (r: Option<ClauseStandard>)
    ensures r.None? <==> forall k :: 0 <= k < |standards| ==> !Applies(standards[k], clauseType, contractType)
    ensures r.Some? ==> exists k :: (0 <= k < |standards| && standards[k] == r.value
      && Applies(standards[k], clauseType, contractType)
      && forall j :: 0 <= j < k ==> !Applies(standards[j], clauseType, contractType))
    decreases |standards|
  {
    if standards == [] then None
    else if Applies(standards[0], clauseType, contractType) then Some(standards[0])
    else
      var r := FirstStandard(standards[1..], clauseType, contractType);
      assert forall k :: 1 <= k < |standards| ==> standards[k] == standards[1..][k - 1];
      if r.Some? then
        var k :| 0 <= k < |standards[1..]| && standards[1..][k] == r.value
          && Applies(standards[1..][k], clauseType, contractType)
          && forall j :: 0 <= j < k ==> !Applies(standards[1..][j], clauseType, contractType);
        assert forall j :: 0 <= j < k + 1 ==> !Applies(standards[j], clauseType, contractType) by {
          forall j | 0 <= j < k + 1 ensures !Applies(standards[j], clauseType, contractType) {
            if j > 0 {
              assert standards[j] == standards[1..][j - 1];
            }
          }
        }
        r
      else r
  }

  const MissingElement := "缺少关键要素: "

  /** One issue per word. */
  function Prefixed(words: seq<string>): (issues: seq<string>)
    ensures |issues| == |words|
    ensures forall k :: 0 <= k < |words| ==> issues[k] == MissingElement + words[k]
  {
    seq(|words|, k requires 0 <= k < |words| => MissingElement + words[k])
  }

  /** The issues of a clause: one per key element it lacks, in the order of
      the elements. */
  function ElementIssues(elements: seq<string>, clauseText: string): seq<string> {
    Prefixed(Kept(elements, clauseText, false))
  }

  /** There is an issue exactly when some key element is absent, and one
      issue per absent element. */
  lemma ElementIssuesCount(elements: seq<string>, clauseText: string)
    ensures ElementIssues(elements, clauseText) == [] <==>
      forall k :: 0 <= k < |elements| ==> Contains(clauseText, elements[k])
    ensures |ElementIssues(elements, clauseText)| + |Kept(elements, clauseText, true)| == |elements|
    ensures forall k :: 0 <= k < |ElementIssues(elements, clauseText)| ==>
      exists e :: e in elements && !Contains(clauseText, e) && ElementIssues(elements, clauseText)[k] == MissingElement + e
  {
    NoneAbsent(elements, clauseText);
    KeptPartition(elements, clauseText);
    KeptSound(elements, clauseText, false);
    var absent := Kept(elements, clauseText, false);
    var count := multiset(Kept(elements, clauseText, true)) + multiset(absent);
    assert |count| == |multiset(elements)|;
    forall k | 0 <= k < |absent| ensures absent[k] in elements {
      assert absent[k] in multiset(absent);
      assert absent[k] in multiset(elements);
    }
  }

  /** The suggestion for a clause with issues. */
  function SuggestionFor(s: ClauseStandard, issues: seq<string>): Suggestion {
    Suggestion(Join(issues, "、"), "建议参考标准模板：" + s.standardTemplate.GetOr("nan"), Cell(s.standardTemplate))
  }

  /** The review of a clause under a standard whose key elements are
      known. */
  function ReviewUnder(s: ClauseStandard, elements: string, clauseText: string, clauseType: string): ReviewResult {
    var issues := ElementIssues(Split(elements, '、'), clauseText);
    ReviewResult(clauseType, issues, if issues == [] then [] else [SuggestionFor(s, issues)], issues != [])
  }

  /** The review of a clause: without an applicable standard there is
      nothing to report; with one, its key-element cell is split on `、`
      (an empty cell cannot be split, which is an error) and each element
      the clause lacks is an issue; issues bring one suggestion. */
  function Review(standards: seq<ClauseStandard>, clauseText: string, clauseType: string, contractType: string)
    : (r: Result<ReviewResult, string>)
    ensures r.Failure? <==>
      FirstStandard(standards, clauseType, contractType).Some?
      && FirstStandard(standards, clauseType, contractType).value.keyElements.None?
    ensures FirstStandard(standards, clauseType, contractType).None? ==>
      r.Success? && r.value.issues == [] && r.value.suggestions == [] && !r.value.hasIssues
    ensures r.Success? ==> r.value.clauseType == clauseType && (r.value.hasIssues <==> r.value.issues != [])
  {
    match FirstStandard(standards, clauseType, contractType)
    case None => Success(ReviewResult(clauseType, [], [], false))
    case Some(s) =>
      if s.keyElements.None? then Failure(SplitOnEmptyCell)
      else Success(ReviewUnder(s, s.keyElements.value, clauseText, clauseType))
  }

  method ReviewClause(standards: seq<ClauseStandard>, clauseText: string, clauseType: string, contractType: string)
    returns (r: Result<ReviewResult, string>)
    ensures r == Review(standards, clauseText, clauseType, contractType)
  {
    var issues: seq<string> := [];
    var suggestions: seq<Suggestion> := [];
    var standard := FirstStandard(standards, clauseType, contractType);
    if standard.Some? {
      var s := standard.value;
      if s.keyElements.None? {
        return Failure(SplitOnEmptyCell);
      }
      var keyElements := Split(s.keyElements.value, '、');
      issues := CollectMissing(keyElements, clauseText);
      if issues != [] {
        suggestions := suggestions + [SuggestionFor(s, issues)];
      }
      assert ReviewResult(clauseType, issues, suggestions, |issues| > 0) == ReviewUnder(s, s.keyElements.value, clauseText, clauseType);
    }
    r := Success(ReviewResult(clauseType, issues, suggestions, |issues| > 0));
  }

  /** The loop over the key elements, appending an issue for each one the
      clause lacks. */
  method CollectMissing(elements: seq<string>, clauseText: string) returns (issues: seq<string>)
    ensures issues == ElementIssues(elements, clauseText)
  {
    issues := [];
    var i := 0;
    while i < |elements|
      invariant 0 <= i <= |elements|
      invariant issues == ElementIssues(elements[..i], clauseText)
    {
      assert elements[..i + 1][..i] == elements[..i];
      if !Contains(clauseText, elements[i]) {
        issues := issues + [MissingElement + elements[i]];
      }
      i := i + 1;
    }
    assert elements[..i] == elements;
  }

  /** The revised clause: the template of the first suggestion when it has
      one (an empty template cell is passed on as `None`), otherwise the
      original clause. */
  function GenerateRevisedClause(original: string, suggestions: seq<Suggestion>): (revised: Option<string>)
    ensures suggestions == [] ==> revised == Some(original)
    ensures suggestions != [] && suggestions[0].standardTemplate.Absent? ==> revised == Some(original)
    ensures suggestions != [] && suggestions[0].standardTemplate.Cell? ==> revised == suggestions[0].standardTemplate.value
  {
    if suggestions == [] then Some(original)
    else match suggestions[0].standardTemplate
      case Absent => Some(original)
      case Cell(v) => v
  }

  /** Revising with a review's suggestions: a clause without issues stays
      as it is, and a clause with issues becomes the applicable standard's
      template. */
  lemma RevisedFromReview(standards: seq<ClauseStandard>, clauseText: string, clauseType: string, contractType: string)
    requires FirstStandard(standards, clauseType, contractType).Some?
    requires FirstStandard(standards, clauseType, contractType).value.keyElements.Some?
    ensures var s := FirstStandard(standards, clauseType, contractType).value;
      var review := ReviewUnder(s, s.keyElements.value, clauseText, clauseType);
      GenerateRevisedClause(clauseText, review.suggestions) ==
        if review.hasIssues then s.standardTemplate else Some(clauseText)
  {
  }

  /** A review reports issues exactly when some key element is absent,
      and then its one suggestion lists the issues joined by `、`, points at
      the standard's template and carries the template cell. */
  lemma ReviewShape(s: ClauseStandard, elements: string, clauseText: string, clauseType: string)
    ensures ReviewUnder(s, elements, clauseText, clauseType).hasIssues <==>
      exists k :: 0 <= k < |Split(elements, '、')| && !Contains(clauseText, Split(elements, '、')[k])
    ensures |ReviewUnder(s, elements, clauseText, clauseType).suggestions| == (if ReviewUnder(s, elements, clauseText, clauseType).hasIssues then 1 else 0)
    ensures ReviewUnder(s, elements, clauseText, clauseType).hasIssues ==>
      ReviewUnder(s, elements, clauseText, clauseType).suggestions[0].issue == Join(ReviewUnder(s, elements, clauseText, clauseType).issues, "、")
    ensures ReviewUnder(s, elements, clauseText, clauseType).hasIssues ==>
      ReviewUnder(s, elements, clauseText, clauseType).suggestions[0].suggestion == "建议参考标准模板：" + s.standardTemplate.GetOr("nan")
    ensures ReviewUnder(s, elements, clauseText, clauseType).hasIssues ==>
      ReviewUnder(s, elements, clauseText, clauseType).suggestions[0].standardTemplate == Cell(s.standardTemplate)
  {
    var parts := Split(elements, '、');
    ElementIssuesCount(parts, clauseText);
    var issues := ElementIssues(parts, clauseText);
    assert ReviewUnder(s, elements, clauseText, clauseType).issues == issues;
    if issues != [] {
      var e :| e in parts && !Contains(clauseText, e) && issues[0] == MissingElement + e;
      var k :| 0 <= k < |parts| && parts[k] == e;
      assert ReviewUnder(s, elements, clauseText, clauseType).hasIssues;
      assert !Contains(clauseText, Split(elements, '、')[k]);
    }
  }
}
