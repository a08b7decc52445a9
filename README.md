# Contract review rule engine

This project is a Dafny model of the deterministic rule engine of a Chinese
contract-review assistant. The engine has six parts:

- **Review depth.** The three review profiles (快速审核, 标准审核, 深度审核).
  Each profile decides which clause categories are reviewed and which
  severities (致命风险, 重要风险, 一般风险, 轻微瑕疵) are reported.
- **Contract analysis.** Ranks the candidate contract types of a text from a
  catalog. Cuts the text into numbered clauses (第一条, 一、, 1., （1）).
  Classifies each clause by a fixed keyword table and files it under its
  category.
- **Risk assessment.** Looks a clause up in the risk-template table. Flags
  the templates whose first three keywords the clause mostly does not
  cover. Maps a 0–100 score to a severity and groups risks into a report.
- **Intelligent scoring.** Builds dimension scores, the weighted composite,
  the risk distribution, the sorted key risks and the recommendations. It
  also computes the additive per-clause score with its four checks
  (vague, incomplete, unbalanced, not executable).
- **The 三观四步法 review.**
  - The commercial, legal and practical analyzers, each a fixed battery of
    probes over the text.
  - The essential-clause partition and the obligation-balance ratio.
  - The regular-expression probes for parties, price terms, exemptions,
    vague wording, acceptance standards and dispute resolution.
  - The four-step summary.
- **Clause review.** Checks a clause against the first applicable standard
  and reports the missing key elements. Chooses the revised clause text.

Tables loaded from CSV files are sequences of records, and an empty cell is
`None`. Each regular expression the analyzers use is a small scanner in
`patterns.dfy`. Each scanner follows Python's `re` semantics where the
engine relies on them:

- `findall` resumes at the end of a match.
- A lazy `.*?` stops at the first hit on the line; a greedy `.*` takes the
  last one.
- `.` does not cross a line break, but `\s*` does.
- An alternation takes the first alternative for which the rest matches.

Two consequences of these semantics are proved:

- **A name after a line break.** `甲方：` followed by a line break and a
  name on the next line yields that name. `\s*` may cross the line break;
  `[^\n]+` may not (`SanguanAnalysis.NameAfterLineBreak`).
- **The 等 pattern matches any 等.** The negative look-ahead in
  `等(?!.*等.*具体)` never excludes a text: the last `等` of a text always
  satisfies it. So the pattern matches exactly the texts that contain `等`
  (`Patterns.EtcMatchesAnyEtc`).

Floating-point scores are replaced by exact arithmetic:

- contract-type scores in tenths of a point (5 for a title hit, 1 per
  keyword);
- classifier scores in fifths (5, plus `min(count, 5)` when a keyword occurs
  more than once);
- dimension-score increments of 30/21/12/3 per risk;
- the composite as `(3c + 4l + 3p) / 10`;
- the balance ratio as an exact `real`.

Module layout:

- One module per source file: `ReviewConfig`, `ContractAnalyzer`,
  `RiskAssessment`, `IntelligentScoring`, `SanguanAnalysis` and
  `ClauseReview`.
- Shared helpers:
  - `Text`: Python's `in`, `count`, `split`, `join`, `strip`, `lower` and
    `str(n)`, with their edge cases;
  - `Sorting`: the stable descending `list.sort(key=…, reverse=True)`;
  - `Patterns`: the regular-expression scanners;
  - `Analysis`: the dimension-analysis records;
  - `Wrappers`: `Option` and `Result`.

## Model

| member | source | states |
|---|---|---|
| ReviewConfig.NewConfig | scripts/review_config.py:40-51 | A depth other than quick, standard and deep is an error whose message quotes the depth. A known depth yields its own profile, which nothing changes afterwards. |
| ReviewConfig.DefaultDepthIsValid | scripts/review_config.py:40 | The default depth `standard` is accepted and selects the standard clause list. |
| ReviewConfig.GetReviewScope | scripts/review_config.py:53-55 | The review scope is the profile of the configured depth. |
| ReviewConfig.GetDetailLevel | scripts/review_config.py:89-91 | The detail level is that of the configured depth's profile. |
| ReviewConfig.AnyMatch | scripts/review_config.py:71-75 | The early-return search succeeds exactly when some target contains the category or is contained in it. |
| ReviewConfig.ShouldCheckClause | scripts/review_config.py:57-75 | Under `all`, every category is checked. Otherwise a category is checked exactly when some target matches it either way round. |
| ReviewConfig.ShouldReportRisk | scripts/review_config.py:77-87 | A severity is reported exactly when it is one of the profile's check categories. |
| ReviewConfig.DeepChecksEverything | scripts/review_config.py:67-68 | The deep profile checks every clause category. |
| ReviewConfig.ReportMonotone | scripts/review_config.py:12-38 | Quick's reported severities are among standard's, and standard's are among deep's. Deep reports exactly the four severities. |
| ReviewConfig.QuickExamples | scripts/review_config.py:113-115 | Quick review checks `标的` clauses and does not check `保密` clauses. |
| ContractAnalyzer.MatchedKeywords | scripts/contract_analyzer.py:217-220 | At most one point per keyword. None exactly when no lower-cased keyword occurs in the lower-cased text. |
| ContractAnalyzer.RowScore | scripts/contract_analyzer.py:209-220 | A row scores zero exactly when neither its name nor any of its keywords occurs. A row without key clauses scores at most the title bonus. |
| ContractAnalyzer.Candidates | scripts/contract_analyzer.py:205-223 | At most one pair per catalog row, each with a positive score. |
| ContractAnalyzer.CandidatesSound | scripts/contract_analyzer.py:205-223 | Every candidate pair is some catalog row's type with that row's score. |
| ContractAnalyzer.CandidatesComplete | scripts/contract_analyzer.py:205-223 | Every catalog row with a positive score has its pair among the candidates. |
| ContractAnalyzer.ScoreRow | scripts/contract_analyzer.py:209-220 | The loop body's score for one row is the row score: 5 when the lower-cased type name occurs, plus one per key-clause keyword present. |
| ContractAnalyzer.IdentifyContractType | scripts/contract_analyzer.py:192-227 | The result is the candidates sorted non-increasingly by score. It is a permutation of the candidates, and pairs with equal scores keep catalog order. |
| ContractAnalyzer.RankingHead | scripts/contract_analyzer.py:222-227 | The ranking is empty exactly when every row scores zero. Otherwise its head holds the highest score of any row. |
| ContractAnalyzer.CategoriesOfTable | scripts/contract_analyzer.py:316-339 | The categories the classifier can return are the table's categories in order, followed by `其他`. |
| ContractAnalyzer.KeywordScore | scripts/contract_analyzer.py:344-350 | A keyword scores zero exactly when it does not occur. An occurring keyword scores between 1.0 and 2.0 (5 to 10 fifths). |
| ContractAnalyzer.BestMatchUnique | scripts/contract_analyzer.py:339-354 | The classification is a function of the text: two best matches of the same text are equal. |
| ContractAnalyzer.BestMatchOfTable | scripts/contract_analyzer.py:339-354 | Over any table without a `其他` row, `其他` is returned exactly when no keyword occurs, and otherwise the result is one of the table's categories. |
| ContractAnalyzer.BestMatchCategory | scripts/contract_analyzer.py:339-354 | `其他` is returned exactly when no keyword of any category occurs. Every result is a category of the table or `其他`. |
| ContractAnalyzer.BestMatch | scripts/contract_analyzer.py:339-354 | The nested keyword loop returns the category of the first (category, keyword) pair in table order that reaches the maximum score (strict `>`), or `其他`. |
| ContractAnalyzer.ClassifyClause | scripts/contract_analyzer.py:303-354 | The clause classifier over the fixed keyword table satisfies that best-match specification. |
| ContractAnalyzer.QuickDropsA | scripts/review_config.py:18 | Quick review drops 数量质量, 履行, 解除终止 and 不可抗力. |
| ContractAnalyzer.QuickDropsB | scripts/review_config.py:18 | Quick review drops 担保保险, 保密, 知识产权 and 争议解决. |
| ContractAnalyzer.QuickDropsC | scripts/review_config.py:18 | Quick review drops 通知送达, 验收, 竞业限制 and 业绩目标. |
| ContractAnalyzer.QuickDropsD | scripts/review_config.py:18 | Quick review drops 股权回购, 一致行动, 工伤, 撤销权 and 其他. |
| ContractAnalyzer.QuickRetention | scripts/review_config.py:71-73 | Over the classifier's categories, quick review keeps exactly 标的, 价款 and 违约责任. 解除终止 is not kept: neither of 解除条款 and 解除终止 contains the other. |
| ContractAnalyzer.NumeralRun | scripts/contract_analyzer.py:246 | The maximal run of Chinese numerals that starts at a position. |
| ContractAnalyzer.DigitRun | scripts/contract_analyzer.py:246 | The maximal run of ASCII digits that starts at a position. |
| ContractAnalyzer.MarkerLengthSound | scripts/contract_analyzer.py:246 | A recognised marker prefix has one of the four marker forms. |
| ContractAnalyzer.MarkerLengthComplete | scripts/contract_analyzer.py:246 | A line that starts with a marker form is recognised with the alternation's own length. |
| ContractAnalyzer.MatchMarkerSpec | scripts/contract_analyzer.py:246 | There is no match exactly when no prefix of the line is a marker. On a match, group 1 is the marker and group 2 is the rest of the line after optional whitespace. |
| ContractAnalyzer.AddClause | scripts/contract_analyzer.py:269-276 | Filing a clause appends it to its category's list (creating the key at the end when new). No other list changes, and the total grows by one. |
| ContractAnalyzer.Group | scripts/contract_analyzer.py:265-276 | Every key of the result passes the category filter. The total is the number of clauses whose category passes the filter. |
| ContractAnalyzer.AddClauseDistinct | scripts/contract_analyzer.py:269-276 | Filing one clause keeps the categories of the entries distinct. |
| ContractAnalyzer.GroupDistinct | scripts/contract_analyzer.py:265-276 | Each category has at most one entry. |
| ContractAnalyzer.GroupLookup | scripts/contract_analyzer.py:265-276 | The list under a category holds that category's clauses in document order when the category passes the filter, and is empty otherwise. |
| ContractAnalyzer.LineKinds | scripts/contract_analyzer.py:252-257 | Each line is classified (blank, marker or body) independently of the others. |
| ContractAnalyzer.ScanCountsMarkers | scripts/contract_analyzer.py:257-284 | Every marker line opens exactly one clause, and an open clause has at least one content line. |
| ContractAnalyzer.ClauseCount | scripts/contract_analyzer.py:252-299 | A text has as many clauses as marker lines. |
| ContractAnalyzer.ScanSkipsBlank | scripts/contract_analyzer.py:253-255 | A blank or all-whitespace line changes nothing. |
| ContractAnalyzer.ScanDropsLeading | scripts/contract_analyzer.py:282-284 | Lines before the first marker line are dropped. |
| ContractAnalyzer.ExtractClauses | scripts/contract_analyzer.py:229-301 | With the intended flush on each marker and at the end of the text, the line loop files exactly the text's clauses. Each clause is classified by the best-match rule and its line number is computed as in the source. |
| ContractAnalyzer.ExtractClausesAsWritten | scripts/contract_analyzer.py:240-301 | As written, both flush guards test a variable that is never set, so the result is empty for every text. |
| ContractAnalyzer.ReviewAllKeepsEveryClause | scripts/contract_analyzer.py:268 | Under a profile that reviews all clauses, every clause is filed. A text with a marker line gives a non-empty result. |
| ContractAnalyzer.AllRetained | scripts/contract_analyzer.py:268 | Under `all`, every classified clause passes the filter. |
| ContractAnalyzer.TypePart | scripts/contract_analyzer.py:387-395 | From a ranking headed by its highest score: the type and the confidence are the head (未知 and 0 when empty), the alternatives are ranks two to four, and none scores above the confidence. |
| ContractAnalyzer.RankType | scripts/contract_analyzer.py:386-395 | The type and confidence are the ranking's head (未知 and 0 when empty), and the alternatives are ranks two to four. No row and no alternative scores above the confidence. |
| ContractAnalyzer.ParseContract | scripts/contract_analyzer.py:375-398 | The parse combines the ranked type with the clauses of the corrected ExtractClauses. `total_clauses` is the sum of the list lengths, which equals the number of retained clauses. As written, `extract_clauses` is always `{}` (see Findings), so `parse_contract` returns no clauses and a total of 0 for every text. |
| ContractAnalyzer.ParseHeadFacts | scripts/contract_analyzer.py:386-394 | The head of the ranking bounds every row's score and every ranked score. |
| RiskAssessment.Tokens | scripts/risk_assessment.py:60 | The keywords are the first `min(3, n)` pieces of the `、`-split description, so there are one to three. |
| RiskAssessment.FlagRuleThree | scripts/risk_assessment.py:61-64 | With three or more pieces, a template is flagged exactly when at most one of its three keywords occurs. |
| RiskAssessment.FlagRuleFew | scripts/risk_assessment.py:61-64 | With one or two pieces, a template is flagged exactly when none of its keywords occurs. |
| RiskAssessment.ThenAssoc | scripts/risk_assessment.py:54-72 | Sequencing template outcomes is associative, so the loop's prefix-by-prefix result is well defined. |
| RiskAssessment.ThenUnit | scripts/risk_assessment.py:54-57 | A template that is skipped contributes nothing. |
| RiskAssessment.AssessOne | scripts/risk_assessment.py:54-72 | One template gives an error exactly when it applies, its severity is reported and its description is empty. Otherwise it gives at most one risk, and it gives one exactly when it applies, is reported and is flagged. That risk carries the template's id, severity and description. |
| RiskAssessment.AssessClauseRisk | scripts/risk_assessment.py:32-74 | The template loop returns the outcome of the templates in table order, including the error an empty description raises. |
| RiskAssessment.AssessedFrom | scripts/risk_assessment.py:54-60 | The first applicable, reported template without a description ends the assessment with the split error. |
| RiskAssessment.AssessedAppend | scripts/risk_assessment.py:54-72 | Assessing two template tables one after the other is assessing their concatenation. |
| RiskAssessment.AssessedSound | scripts/risk_assessment.py:47-72 | There is at most one risk per template. Each risk has a reported severity and comes from an applicable, reported, flagged template whose fields it copies. |
| RiskAssessment.AssessedComplete | scripts/risk_assessment.py:47-72 | Every applicable, reported and flagged template yields its risk. |
| RiskAssessment.AssessedFails | scripts/risk_assessment.py:54-60 | The assessment fails exactly when some applicable, reported template has no description, and the error is the split error. |
| RiskAssessment.ClassifyRiskLevel | scripts/risk_assessment.py:76-93 | ≥80 gives 致命风险, ≥60 gives 重要风险, ≥40 gives 一般风险, and anything else gives 轻微瑕疵. |
| RiskAssessment.ClassifyMonotone | scripts/risk_assessment.py:86-93 | A higher score never gives a lower severity. |
| RiskAssessment.OfLevel | scripts/risk_assessment.py:113-116 | A bucket holds only input risks of its severity. |
| RiskAssessment.OfLevelSnoc | scripts/risk_assessment.py:113-116 | Buckets keep input order: a risk is appended to its own severity's bucket only. |
| RiskAssessment.Unleveled | scripts/risk_assessment.py:115 | The risks no bucket takes are input risks whose type is not one of the four severities. |
| RiskAssessment.GenerateRiskReport | scripts/risk_assessment.py:95-127 | The report always has the four buckets in severity order. Each holds exactly the input risks of its severity, in input order. The summary counts each bucket, and the total is the number of input risks. |
| RiskAssessment.BucketsPartition | scripts/risk_assessment.py:106-116 | The four buckets and the unbucketed risks together are the input risks. |
| RiskAssessment.SummaryBound | scripts/risk_assessment.py:119-126 | The summary adds up to at most the total, with equality exactly when every risk type is one of the four severities. |
| RiskAssessment.UnleveledEmpty | scripts/risk_assessment.py:113-116 | No risk is left out of the buckets exactly when every risk type is one of the four severities. |
| IntelligentScoring.RiskIncrement | scripts/intelligent_scoring.py:88-91 | A risk adds 0.3 × its level score (30, 21, 12 or 3). A missing or unknown level counts as 40. |
| IntelligentScoring.RiskSum | scripts/intelligent_scoring.py:87-91 | The risks add between 3 and 30 each. |
| IntelligentScoring.Clamp | scripts/intelligent_scoring.py:98 | The result lies in [0, 100] and is the score itself when the score is already in range. |
| IntelligentScoring.CalculateDimensionScore | scripts/intelligent_scoring.py:82-98 | The accumulating loop computes clamp(50 + Σ risk increments − 2 × findings) and stays in [0, 100]. |
| IntelligentScoring.DimensionScoreMonotone | scripts/intelligent_scoring.py:84-98 | Another risk never lowers the score, another finding never raises it, and an empty analysis scores 50. |
| IntelligentScoring.CompositeProperties | scripts/intelligent_scoring.py:16-20 | The weights sum to 1: in-range scores give a composite in [0, 100], and equal scores give that score. Changing the legal score by d changes the composite by 0.4d. |
| IntelligentScoring.DetermineRiskLevel | scripts/intelligent_scoring.py:100-109 | ≥80 gives 高风险, ≥60 gives 中等风险, ≥40 gives 低风险, and anything else gives 极低风险. |
| IntelligentScoring.RiskLevelMonotone | scripts/intelligent_scoring.py:100-109 | A higher composite never gives a lower risk level. |
| IntelligentScoring.CountLevelSnoc | scripts/intelligent_scoring.py:121-124 | Each risk increments the counter of its level (default 一般风险) only. |
| IntelligentScoring.CountInto | scripts/intelligent_scoring.py:121-124 | The inner loop adds each risk of one analysis to the count of its level. |
| IntelligentScoring.AnalyzeRiskDistribution | scripts/intelligent_scoring.py:111-126 | The distribution always has the four levels. Each counts the risks of that level over all dimensions, a risk without a level counting as 一般风险. |
| IntelligentScoring.DistributionPartition | scripts/intelligent_scoring.py:113-126 | The four counts and the risks of other levels add up to the number of risks. |
| IntelligentScoring.KeysIn | scripts/intelligent_scoring.py:133-142 | The key risks of one dimension are its 致命风险 and 重要风险 risks. |
| IntelligentScoring.Tagged | scripts/intelligent_scoring.py:132-142 | Before sorting, the key risks are exactly the 致命 and 重要 risks of all dimensions, each tagged with its dimension. |
| IntelligentScoring.CountLevelAppend | scripts/intelligent_scoring.py:120-124 | Counting over concatenated risk lists adds the counts. |
| IntelligentScoring.KeyRisksOf | scripts/intelligent_scoring.py:133-142 | The inner loop collects exactly the 致命风险 and 重要风险 records of one analysis, in order, tagged with the analysis's dimension. |
| IntelligentScoring.CollectKeyRisks | scripts/intelligent_scoring.py:130-142 | The outer loop concatenates the key risks of every analysis in order. |
| IntelligentScoring.IdentifyKeyRisks | scripts/intelligent_scoring.py:128-147 | The result is the tagged key risks stably sorted by level score, descending: sorted, a permutation, with encounter order kept within a level. |
| IntelligentScoring.FatalFirst | scripts/intelligent_scoring.py:145 | In any list of key risks sorted by level score, every 致命风险 precedes every 重要风险. |
| IntelligentScoring.FatalBeforeImportant | scripts/intelligent_scoring.py:145 | In the key risks, every 致命风险 precedes every 重要风险. |
| IntelligentScoring.RecommendationRule | scripts/intelligent_scoring.py:153-180 | 商业维度 emits only for 较差, 差 or 中等; 法律维度 only with a 致命 risk, and the message carries their count; 实务维度 only when some description contains 模糊. |
| IntelligentScoring.RecommendationsBound | scripts/intelligent_scoring.py:149-182 | There is at most one recommendation per analysis, and each comes from one of them. |
| IntelligentScoring.GenerateRecommendations | scripts/intelligent_scoring.py:149-182 | The loop returns the recommendations of the analyses in order. |
| IntelligentScoring.CalculateComprehensiveRiskScore | scripts/intelligent_scoring.py:30-80 | The report holds the three dimension scores and the weighted composite in [0, 100] with its risk level. It also holds the distribution, the recommendations and the sorted key risks of the three analyses. |
| IntelligentScoring.IsVague | scripts/intelligent_scoring.py:239-242 | A predicate without a contract: the clause contains one of 合理, 尽快, 适当, 相关 and 等. ChecksSurviveContext and IssuesMention state its properties. |
| IntelligentScoring.HasKeyElements | scripts/intelligent_scoring.py:244-256 | A predicate without a contract: at least half of the type's elements occur, where the four-entry table gives the elements and any other type has none. KeyElementsRule states its cases. |
| IntelligentScoring.IsBalanced | scripts/intelligent_scoring.py:258-263 | A predicate without a contract: the clause contains both 甲方 and 乙方. ChecksSurviveContext states its properties. |
| IntelligentScoring.IsExecutable | scripts/intelligent_scoring.py:265-272 | A predicate without a contract: a digit directly followed by one of 年月天周小时, or by 元 or 万, or the words 标准 or 规格. `\d+X` matches exactly when some digit is directly followed by X. ChecksSurviveContext states its properties. |
| IntelligentScoring.ClauseSuggestion | scripts/intelligent_scoring.py:274-290 | A function without a contract: the base text for the type, then the note against vagueness when the printed issues mention 模糊, then the note on reciprocity when they mention 不平衡. SuggestionFollowsChecks ties it to the checks. |
| IntelligentScoring.KeyElementsRule | scripts/intelligent_scoring.py:244-256 | Outside the four-entry table, key elements are vacuously present. Inside it, they are present exactly when at least half of the listed elements occur. |
| IntelligentScoring.ChecksSurviveContext | scripts/intelligent_scoring.py:239-272 | Text around a clause never makes it less vague, less balanced or less executable, and never loses a key element. |
| IntelligentScoring.CountPresentExtend | scripts/intelligent_scoring.py:254 | Surrounding text never lowers the number of words found. |
| IntelligentScoring.ClauseScoreProperties | scripts/intelligent_scoring.py:199-220 | The clause score lies in [0, 115] and is 0 exactly when there is no issue. Clauses with the same score have the same issues, because the four weights have distinct subset sums. |
| IntelligentScoring.ClauseLevelMonotone | scripts/intelligent_scoring.py:222-230 | With thresholds 80/50/20, a higher clause score never gives a lower level. |
| IntelligentScoring.MentionsAppend | scripts/intelligent_scoring.py:285-288 | A word occurs in the printed issue list of two lists exactly when it occurs in the printed list of one of them. |
| IntelligentScoring.MentionsIssueIf | scripts/intelligent_scoring.py:285-288 | A conditional issue mentions a word exactly when it is raised and contains the word. |
| IntelligentScoring.IssuesMentionWord | scripts/intelligent_scoring.py:199-220 | The printed issue list mentions a word exactly when one of the raised issues contains it. |
| IntelligentScoring.IssuesMention | scripts/intelligent_scoring.py:285-288 | The issues mention 模糊 exactly when the clause is vague, and 不平衡 exactly when it is unbalanced. |
| IntelligentScoring.SuggestionFollowsChecks | scripts/intelligent_scoring.py:274-290 | The suggestion is the clause type's base text. The vagueness note is added exactly when the clause is vague, and the balance note exactly when it is unbalanced. |
| IntelligentScoring.VagueIssueIsVague | scripts/intelligent_scoring.py:205 | The vagueness issue mentions 模糊. |
| IntelligentScoring.UnbalancedIssueIsUnbalanced | scripts/intelligent_scoring.py:215 | The balance issue mentions 不平衡. |
| IntelligentScoring.MissingIssueNotVague | scripts/intelligent_scoring.py:210 | The missing-elements issue does not mention 模糊. |
| IntelligentScoring.UnbalancedIssueNotVague | scripts/intelligent_scoring.py:215 | The balance issue does not mention 模糊. |
| IntelligentScoring.InoperableIssueNotVague | scripts/intelligent_scoring.py:220 | The executability issue does not mention 模糊. |
| IntelligentScoring.VagueIssueNotUnbalanced | scripts/intelligent_scoring.py:205 | The vagueness issue does not mention 不平衡. |
| IntelligentScoring.MissingIssueNotUnbalanced | scripts/intelligent_scoring.py:210 | The missing-elements issue does not mention 不平衡. |
| IntelligentScoring.InoperableIssueNotUnbalanced | scripts/intelligent_scoring.py:220 | The executability issue does not mention 不平衡. |
| IntelligentScoring.CalculateClauseRiskScore | scripts/intelligent_scoring.py:184-237 | The score adds 30/40/20/25 for the four failed checks, and the issues are listed in check order. The level follows the 80/50/20 thresholds, and the suggestion is built from the issues. |
| IntelligentScoring.CollectIssues | scripts/intelligent_scoring.py:199-220 | The accumulating checks give the additive score and the issues of the failed checks in order. |
| Patterns.LineEnd | scripts/sanguan_analysis.py:258 | The end of the current line: no line break before it, and a line break or the end of the text at it. |
| Patterns.SpaceEnd | scripts/sanguan_analysis.py:258 | The maximal run of whitespace (`\s*`) that starts at a position. |
| Patterns.LastNotNewline | scripts/sanguan_analysis.py:258 | The last position before a bound that is not a line break, where `\s*` backtracks to when the run reaches the end of the text. |
| Patterns.ValueAt | scripts/sanguan_analysis.py:258 | After a colon (full-width or ASCII), `\s*([^\n]+)` captures a non-empty value without line breaks. |
| Patterns.LabelAt | scripts/sanguan_analysis.py:258 | A match at a position starts with one of the labels, tried in order, and captures a non-empty value without line breaks. |
| Patterns.FindLabelled | scripts/sanguan_analysis.py:258-259 | Every `findall` match pairs one of the labels with a non-empty value without line breaks. |
| Patterns.FindLabelledStep | scripts/sanguan_analysis.py:259 | A failed attempt moves `findall` on by one position; a successful one yields a match. |
| Patterns.FindLabelledNone | scripts/sanguan_analysis.py:259 | When the pattern matches at no position, `findall` is empty. |
| Patterns.FindLabelledSome | scripts/sanguan_analysis.py:259 | When the pattern matches at some position, `findall` is non-empty. |
| Patterns.FindLabelledEmpty | scripts/sanguan_analysis.py:259 | `findall` is empty exactly when the pattern matches at no position. |
| Patterns.Obligations | scripts/sanguan_analysis.py:305-306 | A function without a contract: the number of `findall` matches of `party.*?(应\|应当\|须)` from a position. Each match starts at the party word, and the search resumes where the match ends. NoDutyWordNoObligation and AssessBalance state its properties. |
| Patterns.ObligationEnd | scripts/sanguan_analysis.py:305-306 | The lazy `.*?(应\|应当\|须)` ends just after the first 应 or 须 on the line. |
| Patterns.NoDutyWordNoObligation | scripts/sanguan_analysis.py:305-309 | A text without 应 and 须 has no obligations for either party. |
| Patterns.LastWord | scripts/sanguan_analysis.py:343 | The greedy `.*` before a group of two-character words takes the last such word before the bound. |
| Patterns.PairFrom | scripts/sanguan_analysis.py:343 | A match from a first word yields a first word and a second word of the groups. |
| Patterns.FirstPair | scripts/sanguan_analysis.py:343-344 | The first match's groups are a word of the first group and a word of the second. |
| Patterns.FirstPairFinds | scripts/sanguan_analysis.py:337-344 | There is a first match exactly when some first word is followed on the same line by some second word. |
| Patterns.PairFromFinds | scripts/sanguan_analysis.py:343 | A match starts at a first word exactly when a second word follows it on the same line. |
| Patterns.NewlineFreePrefix | scripts/sanguan_analysis.py:343 | A part of a line has no line break. |
| Patterns.WordWithinLine | scripts/sanguan_analysis.py:343 | A second word reached without a line break ends within the line. |
| Patterns.Exemptions | scripts/sanguan_analysis.py:316-317 | A function without a contract: the number of `findall` matches of `(免责\|不承担.*责任\|概不负责)` from a position, resuming where each match ends. ExemptionFound states when it is positive. |
| Patterns.ExemptionEnd | scripts/sanguan_analysis.py:316 | An exemption match (免责, 不承担…责任 or 概不负责) is non-empty. |
| Patterns.ExemptionFound | scripts/sanguan_analysis.py:316-317 | A text with 免责 has at least one exemption match. |
| Patterns.EtcMatchesAnyEtc | scripts/sanguan_analysis.py:327 | The pattern `等(?!.*等.*具体)` matches exactly the texts that contain 等. |
| Patterns.EtcFrom | scripts/sanguan_analysis.py:327 | Any 等 in the text leads to one at which the look-ahead succeeds. |
| SanguanAnalysis.Parties | scripts/sanguan_analysis.py:254-262 | One `role: name` per match, in order, each starting with a role. |
| SanguanAnalysis.PartiesEmpty | scripts/sanguan_analysis.py:258-262 | There are no parties exactly when the role pattern matches at no position. |
| SanguanAnalysis.NameAfterLineBreak | scripts/sanguan_analysis.py:258-261 | `\s*` crosses a line break: `甲方：` followed by a line break and ` A公司` yields `甲方: A公司`. |
| SanguanAnalysis.BlankNameAtEnd | scripts/sanguan_analysis.py:258-261 | When whitespace runs to the end of the text, `\s*` backtracks, and the name is a blank that strips to nothing. |
| SanguanAnalysis.ExtractParties | scripts/sanguan_analysis.py:254-262 | The loop over the matches returns the parties. |
| SanguanAnalysis.PriceTerms | scripts/sanguan_analysis.py:264-271 | The result is empty exactly when there is no match. Otherwise it is the first match as `label: value`, starting with a price label. |
| SanguanAnalysis.EssentialFor | scripts/sanguan_analysis.py:283-290 | Every contract type requires three clauses, found by exact type lookup with the default list as fallback. |
| SanguanAnalysis.CheckEssentialClauses | scripts/sanguan_analysis.py:281-300 | `found` and `missing` are the present and the absent required clauses, in list order. |
| Text.KeptPartition | scripts/sanguan_analysis.py:294-298 | The present and the absent words together are all the required words. |
| Text.KeptSound | scripts/sanguan_analysis.py:294-298 | Every found word occurs in the text, and no missing word does. |
| Text.NoneAbsent | scripts/sanguan_analysis.py:294-298 | Nothing is missing exactly when every required word occurs. |
| SanguanAnalysis.AssessBalance | scripts/sanguan_analysis.py:302-312 | The balance lies in [0, 1]. It is 0.5 when neither party has obligation matches. Otherwise it is 1 exactly when both parties have as many matches, and 0 exactly when one of them has none. |
| SanguanAnalysis.BalanceRatioProperties | scripts/sanguan_analysis.py:311 | min/max lies in [0, 1] and is symmetric. It is 0 exactly when one party has no obligation and 1 exactly when both have the same number. |
| SanguanAnalysis.NoDutyWordBalance | scripts/sanguan_analysis.py:305-309 | A text without 应 and 须 assesses to the default 0.5. |
| SanguanAnalysis.VagueFound | scripts/sanguan_analysis.py:320-333 | The found patterns are in pattern order, at most one each. None is found exactly when no pattern matches. |
| SanguanAnalysis.EtcPatternFound | scripts/sanguan_analysis.py:327 | The fifth vague pattern is found exactly when the text contains 等. |
| SanguanAnalysis.FindVagueTerms | scripts/sanguan_analysis.py:320-333 | The loop over the five patterns returns the patterns found. |
| SanguanAnalysis.HasAcceptance | scripts/sanguan_analysis.py:335-339 | A predicate without a contract: `(验收\|检验\|检查\|测试).*?(标准\|条件\|要求)` matches somewhere, that is, an acceptance word is followed by a requirement word on the same line. |
| SanguanAnalysis.DisputeClause | scripts/sanguan_analysis.py:341-345 | A function without a contract: the groups of the first `findall` match of `(争议\|纠纷).*(仲裁\|诉讼\|法院)`. DisputeClauseFound states when it exists and what its groups are. |
| SanguanAnalysis.DisputeClauseFound | scripts/sanguan_analysis.py:341-345 | A dispute clause is found exactly when 争议 or 纠纷 is followed on the same line by 仲裁, 诉讼 or 法院. Its groups are such words. |
| SanguanAnalysis.AnalyzeCommercialDimension | scripts/sanguan_analysis.py:17-74 | Rated 中等. A party finding exactly when a role label matches, the price finding when price terms exist, a risk exactly when the position is 弱势, and a suggestion exactly when a focus is given. |
| SanguanAnalysis.AnalyzeLegalDimension | scripts/sanguan_analysis.py:76-131 | Rated 良好, and the contract-type finding comes first. A 致命 risk exactly when an essential clause is missing, a 重要 risk exactly when the balance is below 0.3, and an exemption finding when exemptions are found. |
| SanguanAnalysis.AnalyzePracticalDimension | scripts/sanguan_analysis.py:133-188 | Rated 良好. A 一般 risk counting the vague patterns, a 重要 risk when no acceptance standard matches, and exactly one of a dispute finding and a 未约定争议解决方式 risk. |
| SanguanAnalysis.NoDisputeRiskOnlyOwn | scripts/sanguan_analysis.py:153-186 | The missing-dispute risk is neither the vagueness risk nor the acceptance risk. |
| SanguanAnalysis.KeyCommercialRisks | scripts/sanguan_analysis.py:356-367 | There is a market-position risk exactly when the position is 弱势. |
| SanguanAnalysis.ApplySanguanFourSteps | scripts/sanguan_analysis.py:190-250 | Exactly four steps, in fixed order with fixed names. Understanding holds the parties and the context with its defaults, structure holds the stages and the parties, drafting holds the balance score, and reviewing comes last. |
| ClauseReview.FirstStandard | scripts/clause_review.py:42-52 | No standard exactly when no row applies. Otherwise the standard is the first row that applies. |
| ClauseReview.Prefixed | scripts/clause_review.py:58 | One `缺少关键要素: e` per element, in order. |
| ClauseReview.ElementIssuesCount | scripts/clause_review.py:55-58 | One issue per key element absent from the clause, in order. Issues and present elements number as the elements, and there is no issue exactly when all are present. |
| ClauseReview.CollectMissing | scripts/clause_review.py:55-58 | The element loop returns those issues. |
| ClauseReview.Review | scripts/clause_review.py:29-73 | An error exactly when the first applicable standard has an empty key-element cell. With no applicable standard there are no issues, no suggestions and `has_issues` is false. The result carries the clause type, and `has_issues` holds exactly when the issue list is non-empty. |
| ClauseReview.ReviewClause | scripts/clause_review.py:29-73 | With no applicable standard, the result has no issues, no suggestions and `has_issues` false. A standard without key elements raises the split error. Otherwise the result is the review under that standard. |
| ClauseReview.ReviewShape | scripts/clause_review.py:61-72 | `has_issues` holds exactly when some element is absent. There is exactly one suggestion when there are issues, whose issue text is the issues joined by `、` and which quotes the template. |
| ClauseReview.GenerateRevisedClause | scripts/clause_review.py:75-93 | With no suggestions, or a first suggestion without a `standard_template` key, the original is returned. Otherwise the first suggestion's template is returned. |
| ClauseReview.RevisedFromReview | scripts/clause_review.py:61-93 | Revising with a review's suggestions gives the standard's template when the clause has issues, and the clause itself otherwise. |
| Sorting.SortDesc | scripts/contract_analyzer.py:226 | `sort(key, reverse=True)` returns a sorted permutation of its input. |
| Sorting.SortStable | scripts/intelligent_scoring.py:145 | The sort is stable: the elements with any given key keep their order. |

## Left out

- The CSV loaders and pandas. The catalog, the risk templates and the clause standards are sequences of records. In the risk templates, the clause standards and the catalog's `key_clauses`, an empty cell is `None`.
- ContractAnalyzer.ContractTypeRecord: the catalog's `contract_type` is a plain string. An empty name cell is NaN in pandas, and `contract_type.lower()` at scripts/contract_analyzer.py:213 then raises `AttributeError`; the model does not have that error path.
- ContractAnalyzer.IdentifyContractType: scores are exact tenths, while the source sums Python floats (0.5, then 0.1 per keyword). Those sums rank a row with no title match and 6, 7 or 14 keywords above a titled row with 1, 2 or 9 keywords: for example 0.5 + 0.1 is 0.6, which is less than 0.1 added six times, 0.6000000000000001. The model ties such rows and keeps catalog order, so ParseContract's identified type can differ from the source's on those inputs.
- Text.Lower: `str.lower` and `case=False` are modelled on ASCII letters only. The tables and the texts are Chinese, which has no case.
- RiskAssessment.FieldContains: `str.contains` is plain substring matching. A regular-expression metacharacter in a contract or clause type is not interpreted.
- IntelligentScoring.IsExecutable: `\d` is approximated as the ASCII and the full-width digits, not every Unicode decimal digit.
- IntelligentScoring.CalculateComprehensiveRiskScore: the scores are exact, not rounded to two decimals as by `round(..., 2)`. Binary floating point is not modelled.
- SanguanAnalysis.AssessBalance: the ratio is an exact real, and `< 0.3` compares it with the exact value 0.3.
- Python dictionaries become association lists or records. The order of keys in the clause dictionary is the order categories are first filed.
- The HanLP path of the classifier: a foreign library whose structure parse always yields an empty main action, so it never changes the classification. `analyze_contract_type` is a table-to-dictionary conversion and is not part of this model.
- The command-line entry points, the document generator, the risk-list generator and the spreadsheet feedback files: orchestration, rendering and file writes.
- SanguanAnalysis.ApplySanguanFourSteps: the descriptive constants of the placeholder helpers (intent, transaction type, timeline, form, completeness, legality and review texts) are not modelled. Only the parts that depend on the text or the context are.
- `_extract_delivery_terms` is computed by the commercial analyzer but never used in its result.
- SanguanAnalysis.HasAcceptance: the acceptance probe is used only to test whether it matched, so only that is modelled, not the list of matched groups.
- IntelligentScoring.Mentions: `'模糊' in str(issues)` is modelled as a word occurring in one of the issues. Python's list printing adds only quotes, commas and brackets, which cannot complete either word.
- ClauseReview.FirstStandard: the filter at scripts/clause_review.py:43-45 is written so that `|` binds tighter than `==`. The model uses the evident intent: the clause type contains the given type, and the contract type contains the given type or equals `通用`. As written, `(A | B) == '通用'` compares the truth values of the or with the string, which under pandas' element-wise comparison is False in every row (a reading of pandas' semantics). So `standards` is always empty, and `review_clause` never reports an issue or a suggestion.
- ClauseReview.SuggestionFor: an empty template cell (a floating-point NaN) is printed as `nan` in the suggestion text.
- The user context values are optional strings. Other value types a caller could pass are not modelled.

## Findings

| source | as written | input that shows it | evidently intended | confidence | as-written member | corrected member |
|---|---|---|---|---|---|---|
| scripts/contract_analyzer.py:248-287 | `current_clause_type` is set to `None` at the start and at every marker. Both flush guards require it to be truthy, so `extract_clauses` returns `{}` for every text. | `第一条 标的` under the deep profile: one marker line, yet no clause is returned. | Flush the pending clause (classify and file it) whenever a marker line starts a new clause, and at the end of the text. | not executed | ContractAnalyzer.ExtractClausesAsWritten | ContractAnalyzer.ExtractClauses |
