/** Contract analysis: ranking the candidate contract types of a text,
    classifying a clause by keywords, cutting a contract into numbered
    clauses and assembling the parse result. */
module ContractAnalyzer {
  import opened Wrappers
  import opened Text
  import opened Sorting
  import opened ReviewConfig

  // ---------------------------------------------------------------------
  // Contract-type ranking

  /** A row of the contract-type catalog; `keyClauses` is absent when the
      cell is empty. */
  datatype ContractTypeRecord = ContractTypeRecord(contractType: string, keyClauses: Option<string>)

  /** A candidate type with its score in tenths of a point. */
  datatype TypeScore = TypeScore(contractType: string, score: nat)

  function ScoreKey(p: TypeScore): int {
    p.score
  }

  /** The number of keywords that occur in the (lower-cased) text. */
  function MatchedKeywords(keywords: seq<string>, textLower: string): (n: nat)
    ensures n <= |keywords|
    ensures n == 0 <==> forall k :: 0 <= k < |keywords| ==> !Contains(textLower, Lower(keywords[k]))
    decreases |keywords|
  {
    if keywords == [] then 0
    else
      var rest := MatchedKeywords(keywords[1..], textLower);
      assert forall k :: 1 <= k < |keywords| ==> keywords[k] == keywords[1..][k - 1];
      (if Contains(textLower, Lower(keywords[0])) then 1 else 0) + rest
  }

  /** The score of one catalog row, in tenths: 5 when the lower-cased type
      name occurs in the lower-cased text, plus 1 for each `、`-separated key
      clause keyword that occurs. */
  function RowScore(row: ContractTypeRecord, textLower: string): (score: nat)
    ensures score == 0 <==>
      !Contains(textLower, Lower(row.contractType))
      && (row.keyClauses.None? || forall k :: 0 <= k < |Split(row.keyClauses.value, '、')| ==>
                                     !Contains(textLower, Lower(Split(row.keyClauses.value, '、')[k])))
    ensures row.keyClauses.None? ==> score <= 5
    ensures row.keyClauses.Some? ==> score <= 5 + |Split(row.keyClauses.value, '、')|
  {
    var title := if Contains(textLower, Lower(row.contractType)) then 5 else 0;
    var keywords := if row.keyClauses.Some? then MatchedKeywords(Split(row.keyClauses.value, '、'), textLower) else 0;
    title + keywords
  }

  /** The rows with a positive score, in catalog order, with their scores. */
  function Candidates(catalog: seq<ContractTypeRecord>, textLower: string): (c: seq<TypeScore>)
    ensures |c| <= |catalog|
    ensures forall k :: 0 <= k < |c| ==> c[k].score > 0
    decreases |catalog|
  {
    if catalog == [] then []
    else
      var before := Candidates(catalog[..|catalog| - 1], textLower);
      var row := catalog[|catalog| - 1];
      var score := RowScore(row, textLower);
      if score > 0 then before + [TypeScore(row.contractType, score)] else before
  }

  /** Every candidate comes from a catalog row, with that row's score. */
  lemma {:induction false} CandidatesSound(catalog: seq<ContractTypeRecord>, textLower: string)
    ensures forall p :: p in Candidates(catalog, textLower) ==>
      exists i :: 0 <= i < |catalog| && p == TypeScore(catalog[i].contractType, RowScore(catalog[i], textLower))
    decreases |catalog|
  {
    if catalog != [] {
      var init := catalog[..|catalog| - 1];
      CandidatesSound(init, textLower);
      assert forall i :: 0 <= i < |init| ==> init[i] == catalog[i];
    }
  }

  /** Every catalog row that scores is a candidate. */
  lemma {:induction false} CandidatesComplete(catalog: seq<ContractTypeRecord>, textLower: string)
    ensures forall i :: 0 <= i < |catalog| && RowScore(catalog[i], textLower) > 0 ==>
      TypeScore(catalog[i].contractType, RowScore(catalog[i], textLower)) in Candidates(catalog, textLower)
    decreases |catalog|
  {
    if catalog != [] {
      var init := catalog[..|catalog| - 1];
      CandidatesComplete(init, textLower);
      assert forall i :: 0 <= i < |init| ==> init[i] == catalog[i];
    }
  }

  /** The ranking: the candidates in a stable sort, highest score first. */
  function Ranking(catalog: seq<ContractTypeRecord>, text: string): seq<TypeScore> {
    SortDesc(Candidates(catalog, Lower(text)), ScoreKey)
  }

  /** The score of one row: the title bonus, then one point per key-clause
      keyword found. */
  method ScoreRow(row: ContractTypeRecord, textLower: string) returns (score: nat)
    ensures score == RowScore(row, textLower)
  {
    score := 0;
    if Contains(textLower, Lower(row.contractType)) {
      score := score + 5;
    }
    if row.keyClauses.Some? {
      var keywords := Split(row.keyClauses.value, '、');
      score := score + MatchedKeywords(keywords, textLower);
    }
  }

  /** Scores every catalog row against the text and ranks the rows that
      score: highest score first, equal scores in catalog order. */
  method IdentifyContractType(catalog: seq<ContractTypeRecord>, text: string) returns (scores: seq<TypeScore>)
    ensures scores == Ranking(catalog, text)
    ensures SortedDesc(scores, ScoreKey)
    ensures multiset(scores) == multiset(Candidates(catalog, Lower(text)))
    ensures forall v :: WithKey(scores, ScoreKey, v) == WithKey(Candidates(catalog, Lower(text)), ScoreKey, v)
  {
    var textLower := Lower(text);
    scores := [];
    var i := 0;
    while i < |catalog|
      invariant 0 <= i <= |catalog|
      invariant scores == Candidates(catalog[..i], textLower)
    {
      var row := catalog[i];
      var score := ScoreRow(row, textLower);
      assert catalog[..i + 1][..i] == catalog[..i];
      if score > 0 {
        scores := scores + [TypeScore(row.contractType, score)];
      }
      i := i + 1;
    }
    assert catalog[..i] == catalog;
    var unsorted := scores;
    scores := SortDesc(scores, ScoreKey);
    forall v ensures WithKey(scores, ScoreKey, v) == WithKey(unsorted, ScoreKey, v) {
      SortStable(unsorted, ScoreKey, v);
    }
  }

  /** The first-ranked type has the highest score of all candidates, and
      the ranking is empty exactly when no catalog row scores. */
  lemma RankingHead(catalog: seq<ContractTypeRecord>, text: string)
    ensures Ranking(catalog, text) == [] <==> forall i :: 0 <= i < |catalog| ==> RowScore(catalog[i], Lower(text)) == 0
    ensures Ranking(catalog, text) != [] ==>
      forall i :: 0 <= i < |catalog| ==> RowScore(catalog[i], Lower(text)) <= Ranking(catalog, text)[0].score
  {
    var c := Candidates(catalog, Lower(text));
    var r := Ranking(catalog, text);
    CandidatesSound(catalog, Lower(text));
    CandidatesComplete(catalog, Lower(text));
    assert multiset(r) == multiset(c);
    if r != [] {
      assert r[0] in multiset(c);
      assert r[0] in c;
      var w :| 0 <= w < |catalog| && r[0] == TypeScore(catalog[w].contractType, RowScore(catalog[w], Lower(text)));
      assert RowScore(catalog[w], Lower(text)) > 0;
      forall i | 0 <= i < |catalog| ensures RowScore(catalog[i], Lower(text)) <= r[0].score {
        var p := TypeScore(catalog[i].contractType, RowScore(catalog[i], Lower(text)));
        if p.score > 0 {
          assert p in multiset(r);
          var j :| 0 <= j < |r| && r[j] == p;
          assert j == 0 || ScoreKey(r[0]) >= ScoreKey(r[j]);
        }
      }
    }
  }

  // ---------------------------------------------------------------------
  // Clause classification

  /** A category of the clause keyword table with its keywords. */
  datatype KeywordRow = KeywordRow(category: string, keywords: seq<string>)

  /** The category of a clause in which no keyword occurs. */
  const Other := "其他"

  const ClauseKeywords: seq<KeywordRow> := [
    KeywordRow("标的", ["标的", "租赁物", "借款金额", "股权", "工程范围", "工作成果", "委托事项", "赠与物", "技术内容", "保险标的"]),
    KeywordRow("数量质量", ["数量", "质量", "规格", "型号", "标准", "面积", "体积"]),
    KeywordRow("价款", ["价款", "价格", "报酬", "租金", "利息", "费用", "承包费", "增资款", "保险费", "补偿金"]),
    KeywordRow("履行", ["交付", "履行", "施工", "开工", "竣工", "提供", "完成", "转让", "许可"]),
    KeywordRow("违约责任", ["违约", "责任", "赔偿", "违约金"]),
    KeywordRow("解除终止", ["解除", "终止", "到期"]),
    KeywordRow("不可抗力", ["不可抗力"]),
    KeywordRow("担保保险", ["担保", "保证", "抵押", "质押", "保险"]),
    KeywordRow("保密", ["保密", "机密"]),
    KeywordRow("知识产权", ["知识产权", "专利", "商标", "著作权"]),
    KeywordRow("争议解决", ["争议", "仲裁", "诉讼", "法院"]),
    KeywordRow("通知送达", ["通知", "送达", "联系方式"]),
    KeywordRow("验收", ["验收", "检验", "检查", "测试"]),
    KeywordRow("竞业限制", ["竞业限制", "竞业禁止"]),
    KeywordRow("业绩目标", ["业绩目标", "净利润", "营收", "对赌"]),
    KeywordRow("股权回购", ["股权回购", "回购"]),
    KeywordRow("一致行动", ["一致行动", "表决权委托"]),
    KeywordRow("工伤", ["工伤", "工伤保险"]),
    KeywordRow("撤销权", ["撤销权", "撤销"])
  ]

  /** Every category the classifier can return, in table order. */
  const Categories: seq<string> := [
    "标的", "数量质量", "价款", "履行", "违约责任", "解除终止", "不可抗力", "担保保险", "保密", "知识产权",
    "争议解决", "通知送达", "验收", "竞业限制", "业绩目标", "股权回购", "一致行动", "工伤", "撤销权", Other]

  lemma CategoriesOfTable()
    ensures |Categories| == |ClauseKeywords| + 1 && Categories[|ClauseKeywords|] == Other
    ensures forall i :: 0 <= i < |ClauseKeywords| ==> ClauseKeywords[i].category == Categories[i]
    ensures forall i :: 0 <= i < |ClauseKeywords| ==> ClauseKeywords[i].category != Other
  {
  }

  /** The score of one keyword, in fifths of a point: 0 when it does not
      occur (case-sensitively), 5 when it occurs, and 5 + min(count, 5) when
      it occurs `count` > 1 times. */
  function KeywordScore(text: string, keyword: string): (score: nat)
    ensures score == 0 <==> !Contains(text, keyword)
    ensures score == 0 || 5 <= score <= 10
  {
    CountPositive(text, keyword);
    if !Contains(text, keyword) then 0
    else
      var count := Count(text, keyword);
      if count > 1 then 5 + Min(count, 5) else 5
  }

  /** (ci, ki) comes strictly before (cj, kj) in table order. */
  predicate Before(ci: int, ki: int, cj: int, kj: int) {
    ci < cj || (ci == cj && ki < kj)
  }

  predicate ValidPair(table: seq<KeywordRow>, ci: int, ki: int) {
    0 <= ci < |table| && 0 <= ki < |table[ci].keywords|
  }

  function PairScore(table: seq<KeywordRow>, text: string, ci: int, ki: int): nat
    requires ValidPair(table, ci, ki)
  {
    KeywordScore(text, table[ci].keywords[ki])
  }

  /** The (category, keyword) pair at (ci, ki) wins: it occurs, every
      earlier pair scores strictly less and no later pair scores more. */
  ghost predicate IsWinner(table: seq<KeywordRow>, text: string, ci: int, ki: int)
    requires ValidPair(table, ci, ki)
  {
    PairScore(table, text, ci, ki) > 0
    && (forall cj, kj :: ValidPair(table, cj, kj) && Before(cj, kj, ci, ki) ==>
          PairScore(table, text, cj, kj) < PairScore(table, text, ci, ki))
    && (forall cj, kj :: ValidPair(table, cj, kj) && Before(ci, ki, cj, kj) ==>
          PairScore(table, text, cj, kj) <= PairScore(table, text, ci, ki))
  }

  ghost predicate NoKeyword(table: seq<KeywordRow>, text: string) {
    forall cj, kj :: ValidPair(table, cj, kj) ==> PairScore(table, text, cj, kj) == 0
  }

  /** `category` is what the keyword pass decides for `text`: the category
      of the winning pair, or `其他` when no keyword occurs. */
  ghost predicate IsBestMatch(table: seq<KeywordRow>, text: string, category: string) {
    (NoKeyword(table, text) && category == Other)
    || (exists ci, ki :: ValidPair(table, ci, ki) && IsWinner(table, text, ci, ki) && table[ci].category == category)
  }

  /** At most one category is the best match. */
  lemma BestMatchUnique(table: seq<KeywordRow>, text: string, a: string, b: string)
    requires forall ci :: 0 <= ci < |table| ==> table[ci].category != Other
    requires IsBestMatch(table, text, a) && IsBestMatch(table, text, b)
    ensures a == b
  {
    if !NoKeyword(table, text) {
      var ci, ki :| ValidPair(table, ci, ki) && IsWinner(table, text, ci, ki) && table[ci].category == a;
      var cj, kj :| ValidPair(table, cj, kj) && IsWinner(table, text, cj, kj) && table[cj].category == b;
      assert !Before(ci, ki, cj, kj) && !Before(cj, kj, ci, ki);
    }
  }

  /** Over a table none of whose categories is `其他`, the best match is
      `其他` exactly when no keyword of the table occurs in the text, and
      otherwise it is the category of one of the table's rows. */
  lemma BestMatchOfTable(table: seq<KeywordRow>, text: string, category: string)
    requires forall ci :: 0 <= ci < |table| ==> table[ci].category != Other
    requires IsBestMatch(table, text, category)
    ensures category == Other <==>
      forall ci, ki :: ValidPair(table, ci, ki) ==> !Contains(text, table[ci].keywords[ki])
    ensures category != Other ==> exists ci :: 0 <= ci < |table| && table[ci].category == category
  {
    if !NoKeyword(table, text) {
      var ci, ki :| ValidPair(table, ci, ki) && IsWinner(table, text, ci, ki) && table[ci].category == category;
    }
  }

  /** The best match is `其他` exactly when no keyword of the table occurs
      in the text; otherwise it is one of the table's categories. */
  lemma BestMatchCategory(text: string, category: string)
    requires IsBestMatch(ClauseKeywords, text, category)
    ensures category == Other <==>
      forall ci, ki :: ValidPair(ClauseKeywords, ci, ki) ==> !Contains(text, ClauseKeywords[ci].keywords[ki])
    ensures category in Categories
  {
    CategoriesOfTable();
    BestMatchOfTable(ClauseKeywords, text, category);
    if category != Other {
      var ci :| 0 <= ci < |ClauseKeywords| && ClauseKeywords[ci].category == category;
      assert Categories[ci] == category;
    } else {
      assert Categories[|ClauseKeywords|] == category;
    }
  }

  /** The keyword pass over a keyword table: scans the table in order and
      keeps the first pair with the strictly highest score. */
  method BestMatch(table: seq<KeywordRow>, text: string) returns (bestMatch: string)
    ensures IsBestMatch(table, text, bestMatch)
  {
    bestMatch := Other;
    var bestScore := 0;
    ghost var bc, bk := -1, -1;
    var ci := 0;
    while ci < |table|
      invariant 0 <= ci <= |table|
      invariant forall cj, kj :: ValidPair(table, cj, kj) && cj < ci ==> PairScore(table, text, cj, kj) <= bestScore
      invariant bestScore == 0 ==> bestMatch == Other
      invariant bestScore > 0 ==> (ValidPair(table, bc, bk) && bc < ci && table[bc].category == bestMatch
        && PairScore(table, text, bc, bk) == bestScore
        && forall cj, kj :: ValidPair(table, cj, kj) && Before(cj, kj, bc, bk) ==> PairScore(table, text, cj, kj) < bestScore)
    {
      var row := table[ci];
      var ki := 0;
      while ki < |row.keywords|
        invariant 0 <= ki <= |row.keywords|
        invariant forall cj, kj :: ValidPair(table, cj, kj) && Before(cj, kj, ci, ki) ==> PairScore(table, text, cj, kj) <= bestScore
        invariant bestScore == 0 ==> bestMatch == Other
        invariant bestScore > 0 ==> (ValidPair(table, bc, bk) && Before(bc, bk, ci, ki) && table[bc].category == bestMatch
          && PairScore(table, text, bc, bk) == bestScore
          && forall cj, kj :: ValidPair(table, cj, kj) && Before(cj, kj, bc, bk) ==> PairScore(table, text, cj, kj) < bestScore)
      {
        var keyword := row.keywords[ki];
        if Contains(text, keyword) {
          var score := 5;
          var count := Count(text, keyword);
          if count > 1 {
            score := score + Min(count, 5);
          }
          if score > bestScore {
            bestScore := score;
            bestMatch := row.category;
            bc, bk := ci, ki;
          }
        }
        ki := ki + 1;
      }
      ci := ci + 1;
    }
    if bestScore > 0 {
      assert IsWinner(table, text, bc, bk);
    }
  }

  /** The clause classifier: the keyword pass over the clause keyword
      table. */
  method ClassifyClause(text: string) returns (bestMatch: string)
    ensures IsBestMatch(ClauseKeywords, text, bestMatch)
  {
    bestMatch := BestMatch(ClauseKeywords, text);
  }

  // ---------------------------------------------------------------------
  // Which categories the quick profile keeps

  /** A category fails every quick target when it lacks a character of each
      target and has a character that no target has. */
  lemma NotQuickAt(cfg: Config, i: nat, k: nat)
    requires cfg.config.clausesToReview == QuickProfile.clausesToReview
    requires i < |Categories|
    requires ('标' !in Categories[i] || '的' !in Categories[i]) && '价' !in Categories[i]
      && '违' !in Categories[i] && '条' !in Categories[i]
    requires k < |Categories[i]| && Categories[i][k] !in "标的价款违约责任解除条款"
    ensures !ShouldCheckClause(cfg, Categories[i])
  {
    var c := Categories[i];
    NotContainsChar(c, "标的", if '标' !in c then 0 else 1);
    NotContainsChar(c, "价款", 0);
    NotContainsChar(c, "违约责任", 0);
    NotContainsChar(c, "解除条款", 2);
    NotContainsChar("标的", c, k);
    NotContainsChar("价款", c, k);
    NotContainsChar("违约责任", c, k);
    NotContainsChar("解除条款", c, k);
  }

  lemma QuickDropsA(cfg: Config, i: nat)
    requires cfg.config.clausesToReview == QuickProfile.clausesToReview
    requires i == 1 || i == 3 || i == 5 || i == 6
    ensures !ShouldCheckClause(cfg, Categories[i])
  {
    if i == 1 { NotQuickAt(cfg, i, 0); }
    else if i == 3 { NotQuickAt(cfg, i, 0); }
    else if i == 5 { NotQuickAt(cfg, i, 2); }
    else if i == 6 { NotQuickAt(cfg, i, 0); }
  }

  lemma QuickDropsB(cfg: Config, i: nat)
    requires cfg.config.clausesToReview == QuickProfile.clausesToReview
    requires i == 7 || i == 8 || i == 9 || i == 10
    ensures !ShouldCheckClause(cfg, Categories[i])
  {
    if i == 7 { NotQuickAt(cfg, i, 0); }
    else if i == 8 { NotQuickAt(cfg, i, 0); }
    else if i == 9 { NotQuickAt(cfg, i, 0); }
    else if i == 10 { NotQuickAt(cfg, i, 0); }
  }

  lemma QuickDropsC(cfg: Config, i: nat)
    requires cfg.config.clausesToReview == QuickProfile.clausesToReview
    requires i == 11 || i == 12 || i == 13 || i == 14
    ensures !ShouldCheckClause(cfg, Categories[i])
  {
    if i == 11 { NotQuickAt(cfg, i, 0); }
    else if i == 12 { NotQuickAt(cfg, i, 0); }
    else if i == 13 { NotQuickAt(cfg, i, 0); }
    else if i == 14 { NotQuickAt(cfg, i, 0); }
  }

  lemma QuickDropsD(cfg: Config, i: nat)
    requires cfg.config.clausesToReview == QuickProfile.clausesToReview
    requires i == 15 || i == 16 || i == 17 || i == 18 || i == 19
    ensures !ShouldCheckClause(cfg, Categories[i])
  {
    if i == 15 { NotQuickAt(cfg, i, 0); }
    else if i == 16 { NotQuickAt(cfg, i, 0); }
    else if i == 17 { NotQuickAt(cfg, i, 0); }
    else if i == 18 { NotQuickAt(cfg, i, 0); }
    else if i == 19 { NotQuickAt(cfg, i, 0); }
  }

  /** Over the categories the classifier produces, the quick profile keeps
      exactly 标的, 价款 and 违约责任; 解除终止 is not kept, because neither
      of 解除条款 and 解除终止 contains the other. */
  lemma QuickRetention(cfg: Config, i: nat)
    requires cfg.config.clausesToReview == QuickProfile.clausesToReview
    requires i < |Categories|
    ensures ShouldCheckClause(cfg, Categories[i])
      <==> Categories[i] == "标的" || Categories[i] == "价款" || Categories[i] == "违约责任"
  {
    if i == 0 || i == 2 || i == 4 {
      assert Matches(Categories[i], Categories[i]);
    } else if i <= 6 {
      QuickDropsA(cfg, i);
    } else if i <= 10 {
      QuickDropsB(cfg, i);
    } else if i <= 14 {
      QuickDropsC(cfg, i);
    } else {
      QuickDropsD(cfg, i);
    }
  }

  // ---------------------------------------------------------------------
  // Clause-number markers

  predicate IsChineseNumeral(c: char) {
    c in "一二三四五六七八九十百千"
  }

  predicate IsAsciiDigit(c: char) {
    '0' <= c <= '9'
  }

  /** The length of the longest run of Chinese numerals that starts at
      position `i`. */
  function NumeralRun(s: string, i: nat): (n: nat)
    requires i <= |s|
    ensures i + n <= |s|
    ensures forall j :: i <= j < i + n ==> IsChineseNumeral(s[j])
    ensures i + n == |s| || !IsChineseNumeral(s[i + n])
    decreases |s| - i
  {
    if i < |s| && IsChineseNumeral(s[i]) then 1 + NumeralRun(s, i + 1) else 0
  }

  /** The length of the longest run of ASCII digits that starts at
      position `i`. */
  function DigitRun(s: string, i: nat): (n: nat)
    requires i <= |s|
    ensures i + n <= |s|
    ensures forall j :: i <= j < i + n ==> IsAsciiDigit(s[j])
    ensures i + n == |s| || !IsAsciiDigit(s[i + n])
    decreases |s| - i
  {
    if i < |s| && IsAsciiDigit(s[i]) then 1 + DigitRun(s, i + 1) else 0
  }

  /** `第` + Chinese numerals + `条` or `款`. */
  predicate ArticleForm(s: string) {
    |s| >= 3 && s[0] == '第' && (s[|s| - 1] == '条' || s[|s| - 1] == '款')
    && forall j :: 1 <= j < |s| - 1 ==> IsChineseNumeral(s[j])
  }

  /** Chinese numerals + `、` or `.`. */
  predicate ChineseItemForm(s: string) {
    |s| >= 2 && (s[|s| - 1] == '、' || s[|s| - 1] == '.')
    && forall j :: 0 <= j < |s| - 1 ==> IsChineseNumeral(s[j])
  }

  /** ASCII digits + `、` or `.`. */
  predicate DigitItemForm(s: string) {
    |s| >= 2 && (s[|s| - 1] == '、' || s[|s| - 1] == '.')
    && forall j :: 0 <= j < |s| - 1 ==> IsAsciiDigit(s[j])
  }

  /** ASCII digits between full-width parentheses. */
  predicate ParenForm(s: string) {
    |s| >= 3 && s[0] == '（' && s[|s| - 1] == '）'
    && forall j :: 1 <= j < |s| - 1 ==> IsAsciiDigit(s[j])
  }

  /** A clause number: one of the four marker forms. */
  predicate IsMarkerNumber(s: string) {
    ArticleForm(s) || ChineseItemForm(s) || DigitItemForm(s) || ParenForm(s)
  }

  /** The length of a `第…条` / `第…款` number at the start of `line`, or 0. */
  function ArticleLength(line: string): nat
    requires |line| > 0
  {
    var n := NumeralRun(line, 1);
    if n >= 1 && 1 + n < |line| && (line[1 + n] == '条' || line[1 + n] == '款') then n + 2 else 0
  }

  /** The length of a `（digits）` number at the start of `line`, or 0. */
  function ParenLength(line: string): nat
    requires |line| > 0
  {
    var n := DigitRun(line, 1);
    if n >= 1 && 1 + n < |line| && line[1 + n] == '）' then n + 2 else 0
  }

  /** The length of a `numerals、` / `numerals.` number at the start of
      `line`, or 0. */
  function ChineseItemLength(line: string): nat {
    var n := NumeralRun(line, 0);
    if n >= 1 && n < |line| && (line[n] == '、' || line[n] == '.') then n + 1 else 0
  }

  /** The length of a `digits、` / `digits.` number at the start of `line`,
      or 0. */
  function DigitItemLength(line: string): nat {
    var d := DigitRun(line, 0);
    if d >= 1 && d < |line| && (line[d] == '、' || line[d] == '.') then d + 1 else 0
  }

  /** The length of the clause number the marker pattern recognises at the
      start of `line`, or 0 when the line does not start with one. The
      alternatives are tried in the pattern's order; a line that starts with
      Chinese numerals is never read as a digit item. */
  function MarkerLength(line: string): nat {
    if |line| > 0 && line[0] == '第' then ArticleLength(line)
    else if |line| > 0 && line[0] == '（' then ParenLength(line)
    else if NumeralRun(line, 0) >= 1 then ChineseItemLength(line)
    else DigitItemLength(line)
  }

  lemma ArticleSound(line: string)
    requires |line| > 0 && line[0] == '第' && ArticleLength(line) > 0
    ensures ArticleLength(line) <= |line| && ArticleForm(line[..ArticleLength(line)])
  {
    var k := ArticleLength(line);
    var s := line[..k];
    assert forall j :: 0 <= j < k ==> s[j] == line[j];
  }

  lemma ParenSound(line: string)
    requires |line| > 0 && line[0] == '（' && ParenLength(line) > 0
    ensures ParenLength(line) <= |line| && ParenForm(line[..ParenLength(line)])
  {
    var k := ParenLength(line);
    var s := line[..k];
    assert forall j :: 0 <= j < k ==> s[j] == line[j];
  }

  lemma ChineseItemSound(line: string)
    requires ChineseItemLength(line) > 0
    ensures ChineseItemLength(line) <= |line| && ChineseItemForm(line[..ChineseItemLength(line)])
  {
    var k := ChineseItemLength(line);
    var s := line[..k];
    assert forall j :: 0 <= j < k ==> s[j] == line[j];
  }

  lemma DigitItemSound(line: string)
    requires DigitItemLength(line) > 0
    ensures DigitItemLength(line) <= |line| && DigitItemForm(line[..DigitItemLength(line)])
  {
    var k := DigitItemLength(line);
    var s := line[..k];
    assert forall j :: 0 <= j < k ==> s[j] == line[j];
  }

  /** What `MarkerLength` finds is a clause number at the start of the line. */
  lemma MarkerLengthSound(line: string)
    ensures MarkerLength(line) <= |line|
    ensures MarkerLength(line) > 0 ==> IsMarkerNumber(line[..MarkerLength(line)])
  {
    if MarkerLength(line) > 0 {
      if line[0] == '第' {
        ArticleSound(line);
      } else if line[0] == '（' {
        ParenSound(line);
      } else if NumeralRun(line, 0) >= 1 {
        ChineseItemSound(line);
      } else {
        DigitItemSound(line);
      }
    }
  }

  lemma ArticleComplete(line: string, n: nat)
    requires 0 < n <= |line| && ArticleForm(line[..n])
    ensures MarkerLength(line) == n
  {
    var s := line[..n];
    assert forall j :: 0 <= j < n ==> s[j] == line[j];
    var m := NumeralRun(line, 1);
    assert !IsChineseNumeral(line[n - 1]);
  }

  lemma ChineseItemComplete(line: string, n: nat)
    requires 0 < n <= |line| && ChineseItemForm(line[..n])
    ensures MarkerLength(line) == n
  {
    var s := line[..n];
    assert forall j :: 0 <= j < n ==> s[j] == line[j];
    assert IsChineseNumeral(line[0]);
    var m := NumeralRun(line, 0);
    assert !IsChineseNumeral(line[n - 1]);
  }

  lemma DigitItemComplete(line: string, n: nat)
    requires 0 < n <= |line| && DigitItemForm(line[..n])
    ensures MarkerLength(line) == n
  {
    var s := line[..n];
    assert forall j :: 0 <= j < n ==> s[j] == line[j];
    assert IsAsciiDigit(line[0]) && !IsChineseNumeral(line[0]);
    var m := DigitRun(line, 0);
    assert !IsAsciiDigit(line[n - 1]);
  }

  lemma ParenComplete(line: string, n: nat)
    requires 0 < n <= |line| && ParenForm(line[..n])
    ensures MarkerLength(line) == n
  {
    var s := line[..n];
    assert forall j :: 0 <= j < n ==> s[j] == line[j];
    var m := DigitRun(line, 1);
    assert !IsAsciiDigit(line[n - 1]);
  }

  /** Every clause-number prefix of a line is the one `MarkerLength`
      finds: the four forms never overlap and each ends where its run of
      numerals or digits ends. */
  lemma MarkerLengthComplete(line: string, n: nat)
    requires 0 < n <= |line| && IsMarkerNumber(line[..n])
    ensures MarkerLength(line) == n
  {
    if ArticleForm(line[..n]) {
      ArticleComplete(line, n);
    } else if ChineseItemForm(line[..n]) {
      ChineseItemComplete(line, n);
    } else if DigitItemForm(line[..n]) {
      DigitItemComplete(line, n);
    } else {
      ParenComplete(line, n);
    }
  }

  /** A recognised marker: the clause number and the rest of the line
      after the whitespace that follows it. */
  datatype Marker = Marker(number: string, rest: string)

  /** The marker pattern applied to a stripped line. */
  function MatchMarker(line: string): Option<Marker> {
    var n := MarkerLength(line);
    if n == 0 || n > |line| then None else Some(Marker(line[..n], TrimLeft(line[n..])))
  }

  /** The marker pattern matches exactly when the line starts with a clause
      number; that number is unique, and the rest of the line without its
      leading whitespace is the clause's first content line. */
  lemma MatchMarkerSpec(line: string)
    ensures MatchMarker(line).Some? ==>
      var m := MatchMarker(line).value;
      IsMarkerNumber(m.number) && IsPrefix(m.number, line) && m.rest == TrimLeft(line[|m.number|..])
    ensures MatchMarker(line).None? <==> forall n :: 0 < n <= |line| ==> !IsMarkerNumber(line[..n])
    ensures MatchMarker(line).Some? ==>
      forall n :: 0 < n <= |line| && IsMarkerNumber(line[..n]) ==> n == |MatchMarker(line).value.number|
  {
    MarkerLengthSound(line);
    forall n | 0 < n <= |line| && IsMarkerNumber(line[..n]) ensures n == MarkerLength(line) {
      MarkerLengthComplete(line, n);
    }
  }

  // ---------------------------------------------------------------------
  // Clause extraction

  /** A clause as reported: its number, its content lines joined by a line
      break, and the line number computed for it. */
  datatype Clause = Clause(number: string, content: string, lineNumber: int)

  /** The kept clauses of one category, in document order. A result is a
      list of entries in the order their categories first occurred. */
  datatype Entry = Entry(category: string, clauses: seq<Clause>)

  function Keys(d: seq<Entry>): (keys: seq<string>)
    ensures |keys| == |d| && forall i :: 0 <= i < |d| ==> keys[i] == d[i].category
    decreases |d|
  {
    if d == [] then [] else [d[0].category] + Keys(d[1..])
  }

  /** The clauses filed under `category` (none when it has no entry). */
  function Lookup(d: seq<Entry>, category: string): seq<Clause>
    decreases |d|
  {
    if d == [] then []
    else if d[0].category == category then d[0].clauses
    else Lookup(d[1..], category)
  }

  /** The number of clauses in all entries. */
  function TotalClauses(d: seq<Entry>): nat
    decreases |d|
  {
    if d == [] then 0 else |d[0].clauses| + TotalClauses(d[1..])
  }

  /** Files a clause under its category, opening an entry for a category
      not seen before. */
  function AddClause(d: seq<Entry>, category: string, c: Clause): (r: seq<Entry>)
    ensures Lookup(r, category) == Lookup(d, category) + [c]
    ensures forall k :: k != category ==> Lookup(r, k) == Lookup(d, k)
    ensures Keys(r) == if category in Keys(d) then Keys(d) else Keys(d) + [category]
    ensures TotalClauses(r) == TotalClauses(d) + 1
    decreases |d|
  {
    if d == [] then [Entry(category, [c])]
    else if d[0].category == category then
      var r := [Entry(category, d[0].clauses + [c])] + d[1..];
      assert r[1..] == d[1..];
      r
    else
      var rest := AddClause(d[1..], category, c);
      var r := [d[0]] + rest;
      assert r[1..] == rest;
      r
  }

  /** The clauses whose assigned category is `key`, in order. */
  function WithCategory(cs: seq<Clause>, cats: seq<string>, key: string): seq<Clause>
    requires |cats| == |cs|
    decreases |cs|
  {
    if cs == [] then []
    else WithCategory(cs[..|cs| - 1], cats[..|cs| - 1], key)
         + (if cats[|cs| - 1] == key then [cs[|cs| - 1]] else [])
  }

  /** The number of clauses whose category the configuration keeps. */
  function RetainedCount(cfg: Config, cats: seq<string>): nat
    decreases |cats|
  {
    if cats == [] then 0
    else RetainedCount(cfg, cats[..|cats| - 1]) + (if ShouldCheckClause(cfg, cats[|cats| - 1]) then 1 else 0)
  }

  /** Files the clauses, whose categories are `cats`, keeping only the
      categories the configuration reviews. Each category has one entry, and
      it lists exactly the clauses of that category in document order. */
  function Group(cfg: Config, cs: seq<Clause>, cats: seq<string>): (d: seq<Entry>)
    requires |cats| == |cs|
    ensures forall k :: k in Keys(d) ==> ShouldCheckClause(cfg, k)
    ensures TotalClauses(d) == RetainedCount(cfg, cats)
    decreases |cs|
  {
    if cs == [] then []
    else
      var n := |cs| - 1;
      var before := Group(cfg, cs[..n], cats[..n]);
      assert cats[..n] == cats[..|cats| - 1];
      if ShouldCheckClause(cfg, cats[n]) then AddClause(before, cats[n], cs[n]) else before
  }

  predicate Distinct(s: seq<string>) {
    forall i, j :: 0 <= i < j < |s| ==> s[i] != s[j]
  }

  /** Filing a clause keeps the categories of the entries distinct. */
  lemma AddClauseDistinct(d: seq<Entry>, category: string, c: Clause)
    requires Distinct(Keys(d))
    ensures Distinct(Keys(AddClause(d, category, c)))
  {
    var ks := Keys(d);
    if category !in ks {
      var r := ks + [category];
      forall i, j | 0 <= i < j < |r| ensures r[i] != r[j] {
        if j == |ks| {
          assert r[i] == ks[i] && ks[i] in ks;
        }
      }
    }
  }

  /** Each category has one entry: the categories of the entries are
      distinct. */
  lemma {:induction false} GroupDistinct(cfg: Config, cs: seq<Clause>, cats: seq<string>)
    requires |cats| == |cs|
    ensures Distinct(Keys(Group(cfg, cs, cats)))
    decreases |cs|
  {
    if cs != [] {
      var n := |cs| - 1;
      assert cats[..n] == cats[..|cats| - 1];
      GroupDistinct(cfg, cs[..n], cats[..n]);
      if ShouldCheckClause(cfg, cats[n]) {
        AddClauseDistinct(Group(cfg, cs[..n], cats[..n]), cats[n], cs[n]);
      }
    }
  }

  /** Looking a category up in the result gives exactly the clauses of
      that category when the configuration keeps it, and nothing otherwise. */
  lemma {:induction false} GroupLookup(cfg: Config, cs: seq<Clause>, cats: seq<string>, key: string)
    requires |cats| == |cs|
    ensures Lookup(Group(cfg, cs, cats), key) == if ShouldCheckClause(cfg, key) then WithCategory(cs, cats, key) else []
    decreases |cs|
  {
    if cs != [] {
      var n := |cs| - 1;
      GroupLookup(cfg, cs[..n], cats[..n], key);
    }
  }

  /** The clause being accumulated: its number and its content lines. */
  datatype Pending = Pending(number: string, lines: seq<string>)

  /** The state of the line scan: the clauses closed so far and the clause
      being accumulated, if any. */
  datatype ScanState = ScanState(done: seq<Clause>, pending: Option<Pending>)

  /** What a line of the text is once stripped: blank, the start of a
      clause (the marker pattern matches), or any other content. */
  datatype LineKind = Blank | Opens(marker: Marker) | Body(line: string)

  function KindOf(raw: string): LineKind
  {
    var line := Strip(raw);
    if line == [] then Blank
    else
      match MatchMarker(line)
      case Some(m) => Opens(m)
      case None => Body(line)
  }

  function LineKinds(lines: seq<string>): (ks: seq<LineKind>)
    ensures |ks| == |lines| && forall j :: 0 <= j < |lines| ==> ks[j] == KindOf(lines[j])
  {
    seq(|lines|, j requires 0 <= j < |lines| => KindOf(lines[j]))
  }

  /** Closes the pending clause when the next clause starts on line
      `nextLine`: its line number is `nextLine` minus its number of content
      lines. */
  function Close(p: Option<Pending>, nextLine: int): (cs: seq<Clause>)
    ensures |cs| == if p.Some? then 1 else 0
  {
    match p
    case None => []
    case Some(q) => [Clause(q.number, Join(q.lines, "\n"), nextLine - |q.lines|)]
  }

  /** One line of the scan (numbered from 1): blank lines are skipped, a
      marker line closes the pending clause and opens a new one, any other
      line is added to the pending clause, or dropped when there is none. */
  function Step(st: ScanState, lineNumber: int, kind: LineKind): ScanState {
    match kind
    case Blank => st
    case Opens(m) => ScanState(st.done + Close(st.pending, lineNumber), Some(Pending(m.number, [m.rest])))
    case Body(line) =>
      match st.pending
      case None => st
      case Some(q) => ScanState(st.done, Some(Pending(q.number, q.lines + [line])))
  }

  /** The scan over the kinds of the lines, in order. */
  function Scan(kinds: seq<LineKind>): ScanState
    decreases |kinds|
  {
    if kinds == [] then ScanState([], None)
    else Step(Scan(kinds[..|kinds| - 1]), |kinds|, kinds[|kinds| - 1])
  }

  /** Every clause of the text in document order, before classification:
      the last one is closed as if the next clause started after the last
      line. */
  function SplitClauses(text: string): seq<Clause> {
    var lines := Split(text, '\n');
    var st := Scan(LineKinds(lines));
    st.done + Close(st.pending, |lines| + 1)
  }

  /** The number of lines that open a clause. */
  function MarkerLines(kinds: seq<LineKind>): nat
    decreases |kinds|
  {
    if kinds == [] then 0
    else MarkerLines(kinds[..|kinds| - 1]) + (if kinds[|kinds| - 1].Opens? then 1 else 0)
  }

  /** Each marker line opens exactly one clause. */
  lemma {:induction false} ScanCountsMarkers(kinds: seq<LineKind>)
    ensures |Scan(kinds).done| + (if Scan(kinds).pending.Some? then 1 else 0) == MarkerLines(kinds)
    ensures Scan(kinds).pending.Some? ==> |Scan(kinds).pending.value.lines| >= 1
    decreases |kinds|
  {
    if kinds != [] {
      ScanCountsMarkers(kinds[..|kinds| - 1]);
    }
  }

  /** The text has as many clauses as lines that open one. */
  lemma ClauseCount(text: string)
    ensures |SplitClauses(text)| == MarkerLines(LineKinds(Split(text, '\n')))
  {
    ScanCountsMarkers(LineKinds(Split(text, '\n')));
  }

  /** A blank line changes nothing. */
  lemma ScanSkipsBlank(kinds: seq<LineKind>)
    ensures Scan(kinds + [Blank]) == Scan(kinds)
  {
    assert (kinds + [Blank])[..|kinds|] == kinds;
  }

  /** Lines before the first marker line contribute nothing. */
  lemma {:induction false} ScanDropsLeading(kinds: seq<LineKind>)
    requires forall j :: 0 <= j < |kinds| ==> !kinds[j].Opens?
    ensures Scan(kinds) == ScanState([], None)
    decreases |kinds|
  {
    if kinds != [] {
      var init := kinds[..|kinds| - 1];
      assert forall j :: 0 <= j < |init| ==> init[j] == kinds[j];
      ScanDropsLeading(init);
    }
  }

  lemma GroupSnoc(cfg: Config, cs: seq<Clause>, cats: seq<string>, c: Clause, cat: string)
    requires |cats| == |cs|
    ensures Group(cfg, cs + [c], cats + [cat])
      == if ShouldCheckClause(cfg, cat) then AddClause(Group(cfg, cs, cats), cat, c) else Group(cfg, cs, cats)
  {
    assert (cs + [c])[..|cs|] == cs;
    assert (cats + [cat])[..|cs|] == cats;
  }

  /** `cats` are the classifier's decisions for the clauses `cs`. */
  ghost predicate Classified(cs: seq<Clause>, cats: seq<string>) {
    |cats| == |cs| && forall k :: 0 <= k < |cats| ==> IsBestMatch(ClauseKeywords, cs[k].content, cats[k])
  }

  lemma ClassifiedSnoc(cs: seq<Clause>, cats: seq<string>, c: Clause, cat: string)
    requires Classified(cs, cats) && IsBestMatch(ClauseKeywords, c.content, cat)
    ensures Classified(cs + [c], cats + [cat])
  {
    forall k | 0 <= k < |cats| + 1
      ensures IsBestMatch(ClauseKeywords, (cs + [c])[k].content, (cats + [cat])[k])
    {
      if k < |cats| {
        assert (cs + [c])[k] == cs[k] && (cats + [cat])[k] == cats[k];
      }
    }
  }

  /** Classifies a closed clause and files it when the configuration
      reviews its category: the result is the grouping of the clauses so
      far followed by this one. */
  method FileClause(cfg: Config, clauses: seq<Entry>, clause: Clause, ghost done: seq<Clause>, ghost cats: seq<string>)
    returns (updated: seq<Entry>, ghost cats': seq<string>)
    requires Classified(done, cats) && clauses == Group(cfg, done, cats)
    ensures Classified(done + [clause], cats')
    ensures updated == Group(cfg, done + [clause], cats')
  {
    var clauseType := ClassifyClause(clause.content);
    cats' := cats + [clauseType];
    updated := clauses;
    if ShouldCheckClause(cfg, clauseType) {
      updated := AddClause(clauses, clauseType, clause);
    }
    GroupSnoc(cfg, done, cats, clause, clauseType);
    ClassifiedSnoc(done, cats, clause, clauseType);
  }

  /** Strips one line and applies the marker pattern to it. */
  method ReadLine(raw: string) returns (kind: LineKind)
    ensures kind == KindOf(raw)
  {
    var line := Strip(raw);
    if line == [] {
      kind := Blank;
    } else {
      var m := MatchMarker(line);
      if m.Some? {
        kind := Opens(m.value);
      } else {
        kind := Body(line);
      }
    }
  }

  /** The scan over one more line that opens a clause. */
  lemma ScanOpens(kinds: seq<LineKind>, m: Marker, done: seq<Clause>, pending: Option<Pending>)
    requires Scan(kinds) == ScanState(done, pending)
    ensures Scan(kinds + [Opens(m)]) == ScanState(done + Close(pending, |kinds| + 1), Some(Pending(m.number, [m.rest])))
  {
    assert (kinds + [Opens(m)])[..|kinds|] == kinds;
  }

  /** The scan over one more line of content. */
  lemma ScanBody(kinds: seq<LineKind>, line: string, done: seq<Clause>, pending: Option<Pending>)
    requires Scan(kinds) == ScanState(done, pending)
    ensures Scan(kinds + [Body(line)])
      == if pending.Some? then ScanState(done, Some(Pending(pending.value.number, pending.value.lines + [line]))) else ScanState(done, pending)
  {
    assert (kinds + [Body(line)])[..|kinds|] == kinds;
  }

  lemma CloseSome(number: string, lines: seq<string>, nextLine: int)
    ensures Close(Some(Pending(number, lines)), nextLine) == [Clause(number, Join(lines, "\n"), nextLine - |lines|)]
  {
  }

  /** The clauses of a text whose whole scan is known. */
  lemma SplitClausesOf(text: string, done: seq<Clause>, pending: Option<Pending>)
    requires Scan(LineKinds(Split(text, '\n'))) == ScanState(done, pending)
    ensures SplitClauses(text) == done + Close(pending, |Split(text, '\n')| + 1)
  {
  }

  /** The clause a pending number and content lines stand for, if any. */
  function PendingOf(number: Option<string>, content: seq<string>): Option<Pending> {
    if number.Some? then Some(Pending(number.value, content)) else None
  }

  /** Closes the pending clause, if any, when the next clause starts on
      line `nextLine`: classifies it and files it when the configuration
      reviews its category. */
  method Flush(cfg: Config, nextLine: int, clauses: seq<Entry>, number: Option<string>, content: seq<string>,
               ghost done: seq<Clause>, ghost cats: seq<string>)
    returns (clauses': seq<Entry>, ghost done': seq<Clause>, ghost cats': seq<string>)
    requires Classified(done, cats) && clauses == Group(cfg, done, cats)
    requires number.Some? ==> |content| >= 1
    ensures done' == done + Close(PendingOf(number, content), nextLine)
    ensures Classified(done', cats') && clauses' == Group(cfg, done', cats')
  {
    if number.Some? && |content| > 0 {
      var clause := Clause(number.value, Join(content, "\n"), nextLine - |content|);
      CloseSome(number.value, content, nextLine);
      clauses', cats' := FileClause(cfg, clauses, clause, done, cats);
      done' := done + [clause];
    } else {
      clauses', done', cats' := clauses, done, cats;
      assert done + Close(PendingOf(number, content), nextLine) == done;
    }
  }

  /** One iteration of the extraction loop: reads a line and, when it
      opens a clause, flushes the clause it closes. It keeps the loop's
      correspondence with the scan: the lines read so far scan to the
      clauses closed so far and the pending clause, and the result is the
      grouping of the closed clauses. */
  method ScanLine(cfg: Config, lineNumber: int, raw: string, clauses: seq<Entry>, number: Option<string>, content: seq<string>,
                  ghost kinds: seq<LineKind>, ghost done: seq<Clause>, ghost cats: seq<string>)
    returns (clauses': seq<Entry>, number': Option<string>, content': seq<string>,
             kind: LineKind, ghost done': seq<Clause>, ghost cats': seq<string>)
    requires lineNumber == |kinds| + 1
    requires Scan(kinds) == ScanState(done, PendingOf(number, content))
    requires Classified(done, cats) && clauses == Group(cfg, done, cats)
    requires number.Some? ==> |content| >= 1
    ensures kind == KindOf(raw)
    ensures Scan(kinds + [kind]) == ScanState(done', PendingOf(number', content'))
    ensures Classified(done', cats') && clauses' == Group(cfg, done', cats')
    ensures number'.Some? ==> |content'| >= 1
  {
    kind := ReadLine(raw);
    clauses', number', content', done', cats' := clauses, number, content, done, cats;
    match kind {
      case Blank =>
        ScanSkipsBlank(kinds);
      case Opens(m) =>
        ScanOpens(kinds, m, done, PendingOf(number, content));
        clauses', done', cats' := Flush(cfg, lineNumber, clauses, number, content, done, cats);
        number' := Some(m.number);
        content' := [m.rest];
      case Body(line) =>
        ScanBody(kinds, line, done, PendingOf(number, content));
        if number.Some? {
          content' := content + [line];
        }
    }
  }

  /** The kinds of the first `i` lines, extended by the kind of the next. */
  lemma KindsSnoc(lines: seq<string>, kinds: seq<LineKind>, kind: LineKind)
    requires |kinds| < |lines| && forall j :: 0 <= j < |kinds| ==> kinds[j] == KindOf(lines[j])
    requires kind == KindOf(lines[|kinds|])
    ensures forall j :: 0 <= j < |kinds| + 1 ==> (kinds + [kind])[j] == KindOf(lines[j])
  {
  }

  /** The clause-extraction line loop with the evidently intended flush: the
      pending clause is classified and filed whenever a new marker line
      starts and at the end of the text. The ghost `categories` are the
      classifier's decisions for the clauses, in document order. */
  method ExtractClauses(cfg: Config, text: string) returns (clauses: seq<Entry>, ghost categories: seq<string>)
    ensures Classified(SplitClauses(text), categories)
    ensures clauses == Group(cfg, SplitClauses(text), categories)
  {
    var lines := Split(text, '\n');
    clauses := [];
    categories := [];
    var currentNumber: Option<string> := None;
    var currentContent: seq<string> := [];
    ghost var done: seq<Clause> := [];
    ghost var kinds: seq<LineKind> := [];
    var lineNum := 0;
    while lineNum < |lines|
      invariant 0 <= lineNum <= |lines|
      invariant |kinds| == lineNum && forall j :: 0 <= j < lineNum ==> kinds[j] == KindOf(lines[j])
      invariant Scan(kinds) == ScanState(done, PendingOf(currentNumber, currentContent))
      invariant Classified(done, categories) && clauses == Group(cfg, done, categories)
      invariant currentNumber.Some? ==> |currentContent| >= 1
    {
      var kind;
      clauses, currentNumber, currentContent, kind, done, categories :=
        ScanLine(cfg, lineNum + 1, lines[lineNum], clauses, currentNumber, currentContent, kinds, done, categories);
      KindsSnoc(lines, kinds, kind);
      kinds := kinds + [kind];
      lineNum := lineNum + 1;
    }
    assert kinds == LineKinds(lines);
    SplitClausesOf(text, done, PendingOf(currentNumber, currentContent));
    clauses, done, categories := Flush(cfg, lineNum + 1, clauses, currentNumber, currentContent, done, categories);
  }

  /** The clause-extraction line loop as written: the variable that guards
      both flushes is set to "no type" at the start and again at every
      marker, so no clause is ever filed and the result is empty for every
      text. */
  method ExtractClausesAsWritten(cfg: Config, text: string) returns (clauses: seq<Entry>)
    ensures clauses == []
  {
    var lines := Split(text, '\n');
    clauses := [];
    var currentType: Option<string> := None;
    var currentNumber: Option<string> := None;
    var currentContent: seq<string> := [];
    var lineNum := 0;
    while lineNum < |lines|
      invariant 0 <= lineNum <= |lines|
      invariant clauses == [] && currentType == None
    {
      var line := Strip(lines[lineNum]);
      lineNum := lineNum + 1;
      if line != [] {
        var m := MatchMarker(line);
        if m.Some? {
          if currentType.GetOr("") != "" && |currentContent| > 0 {
            var clauseText := Join(currentContent, "\n");
            var clauseType := ClassifyClause(clauseText);
            if ShouldCheckClause(cfg, clauseType) {
              clauses := AddClause(clauses, clauseType, Clause(currentNumber.GetOr(""), clauseText, lineNum - |currentContent|));
            }
          }
          currentNumber := Some(m.value.number);
          currentContent := [m.value.rest];
          currentType := None;
        } else if currentNumber.Some? {
          currentContent := currentContent + [line];
        }
      }
    }
    if currentType.GetOr("") != "" && |currentContent| > 0 {
      var clauseText := Join(currentContent, "\n");
      var clauseType := ClassifyClause(clauseText);
      if ShouldCheckClause(cfg, clauseType) {
        clauses := AddClause(clauses, clauseType, Clause(currentNumber.GetOr(""), clauseText, lineNum - |currentContent| + 1));
      }
    }
  }

  /** With a profile that reviews every clause, every clause of the text is
      filed; so a text with a marker line (say the single line
      `第一条 标的`) yields a non-empty result, where the loop as written
      yields none. */
  lemma ReviewAllKeepsEveryClause(cfg: Config, text: string, cats: seq<string>)
    requires cfg.config.clausesToReview.All?
    requires |cats| == |SplitClauses(text)|
    ensures TotalClauses(Group(cfg, SplitClauses(text), cats)) == MarkerLines(LineKinds(Split(text, '\n')))
    ensures MarkerLines(LineKinds(Split(text, '\n'))) > 0 ==> Group(cfg, SplitClauses(text), cats) != []
  {
    ClauseCount(text);
    AllRetained(cfg, cats);
  }

  lemma {:induction false} AllRetained(cfg: Config, cats: seq<string>)
    requires cfg.config.clausesToReview.All?
    ensures RetainedCount(cfg, cats) == |cats|
    decreases |cats|
  {
    if cats != [] {
      AllRetained(cfg, cats[..|cats| - 1]);
    }
  }

  // ---------------------------------------------------------------------
  // Parse result

  /** The parse of a contract: the best-ranked type and its score (in
      tenths), up to three runner-up types, the filed clauses and their
      number. */
  datatype ContractParse = ContractParse(
    identifiedType: string,
    typeConfidence: nat,
    typeAlternatives: seq<TypeScore>,
    clauses: seq<Entry>,
    totalClauses: nat)

  /** The type reported when no catalog row scores. */
  const UnknownType := "未知"

  /** The type part of the parse: the type and the confidence come from
      the head of the ranking (unknown and 0 when it is empty) and the
      alternatives are ranks two to four. The confidence is the highest
      score of any catalog row, and no alternative scores above it. */
  method RankType(catalog: seq<ContractTypeRecord>, text: string)
    returns (identifiedType: string, confidence: nat, alternatives: seq<TypeScore>)
    ensures Ranking(catalog, text) == [] ==> identifiedType == UnknownType && confidence == 0
    ensures Ranking(catalog, text) != [] ==>
      identifiedType == Ranking(catalog, text)[0].contractType && confidence == Ranking(catalog, text)[0].score
    ensures alternatives ==
      if |Ranking(catalog, text)| > 1 then Ranking(catalog, text)[1..Min(4, |Ranking(catalog, text)|)] else []
    ensures |alternatives| <= 3
    ensures forall i :: 0 <= i < |catalog| ==> RowScore(catalog[i], Lower(text)) <= confidence
    ensures forall k :: 0 <= k < |alternatives| ==> alternatives[k].score <= confidence
  {
    var typeScores := IdentifyContractType(catalog, text);
    ParseHeadFacts(catalog, text, typeScores);
    identifiedType, confidence, alternatives := TypePart(typeScores);
  }

  /** The type, the confidence and the alternatives read off a ranking
      sorted by descending score. */
  method TypePart(r: seq<TypeScore>) returns (identifiedType: string, confidence: nat, alternatives: seq<TypeScore>)
    requires forall k :: 0 <= k < |r| ==> r[k].score <= r[0].score
    ensures r == [] ==> identifiedType == UnknownType && confidence == 0
    ensures r != [] ==> identifiedType == r[0].contractType && confidence == r[0].score
    ensures alternatives == if |r| > 1 then r[1..Min(4, |r|)] else []
    ensures |alternatives| <= 3
    ensures forall k :: 0 <= k < |alternatives| ==> alternatives[k].score <= confidence
  {
    if r == [] {
      identifiedType, confidence, alternatives := UnknownType, 0, [];
    } else {
      identifiedType, confidence := r[0].contractType, r[0].score;
      if |r| > 1 {
        alternatives := r[1..Min(4, |r|)];
        assert forall k :: 0 <= k < |alternatives| ==> alternatives[k] == r[k + 1];
      } else {
        alternatives := [];
      }
    }
  }

  /** Ranks the types, extracts the clauses and assembles the result; the
      total counts every filed clause. */
  method ParseContract(cfg: Config, catalog: seq<ContractTypeRecord>, text: string)
    returns (parsed: ContractParse, ghost categories: seq<string>)
    ensures Ranking(catalog, text) == [] ==> parsed.identifiedType == UnknownType && parsed.typeConfidence == 0
    ensures Ranking(catalog, text) != [] ==>
      parsed.identifiedType == Ranking(catalog, text)[0].contractType
      && parsed.typeConfidence == Ranking(catalog, text)[0].score
    ensures parsed.typeAlternatives ==
      if |Ranking(catalog, text)| > 1 then Ranking(catalog, text)[1..Min(4, |Ranking(catalog, text)|)] else []
    ensures forall i :: 0 <= i < |catalog| ==> RowScore(catalog[i], Lower(text)) <= parsed.typeConfidence
    ensures Classified(SplitClauses(text), categories)
    ensures parsed.clauses == Group(cfg, SplitClauses(text), categories)
    ensures parsed.totalClauses == TotalClauses(parsed.clauses) == RetainedCount(cfg, categories)
  {
    var identifiedType, confidence, alternatives := RankType(catalog, text);
    var clauses;
    clauses, categories := ExtractClauses(cfg, text);
    parsed := ContractParse(identifiedType, confidence, alternatives, clauses, TotalClauses(clauses));
  }

  /** The facts about the ranking the parse result needs: the head bounds
      every row's score and every ranked score. */
  lemma ParseHeadFacts(catalog: seq<ContractTypeRecord>, text: string, r: seq<TypeScore>)
    requires r == Ranking(catalog, text)
    ensures r == [] ==> forall i :: 0 <= i < |catalog| ==> RowScore(catalog[i], Lower(text)) == 0
    ensures r != [] ==> forall i :: 0 <= i < |catalog| ==> RowScore(catalog[i], Lower(text)) <= r[0].score
    ensures r != [] ==> forall k :: 0 <= k < |r| ==> r[k].score <= r[0].score
  {
    RankingHead(catalog, text);
    assert SortedDesc(r, ScoreKey);
    if r != [] {
      forall k | 0 <= k < |r| ensures r[k].score <= r[0].score {
        assert k == 0 || ScoreKey(r[0]) >= ScoreKey(r[k]);
      }
    }
  }
}
