/** The records the three-dimension analysis produces and the scoring
    consumes: one analysis per dimension, with its findings, risks and
    suggestions. A field a record may lack is an `Option`. */
module Analysis {
  import opened Wrappers

  datatype Finding = Finding(category: string, content: string, significance: string)

  datatype RiskItem = RiskItem(
    riskType: Option<string>,
    description: Option<string>,
    level: Option<string>,
    suggestion: Option<string>)

  datatype Suggestion = Suggestion(aspect: string, content: string)

  datatype DimensionAnalysis = DimensionAnalysis(
    dimension: Option<string>,
    rating: Option<string>,
    findings: seq<Finding>,
    risks: seq<RiskItem>,
    suggestions: seq<Suggestion>)

  const Commercial := "商业维度"
  const Legal := "法律维度"
  const Practical := "实务维度"
}
