/** The regular expressions of the three-dimension analysis, written out as
    scanners with the meaning Python's `re` gives them: `findall` tries
    every start position from the left and resumes after each match,
    `search` asks whether some substring matches, `.` is any character but
    a newline, `\s` is whitespace, `*` is greedy and `*?` lazy, and an
    alternation takes the first alternative with which the rest of the
    pattern succeeds. */
module Patterns {
  import opened Wrappers
  import opened Text

  /** The first newline at or after `p`, or the end of the text: where a
      run of `.` starting at `p` must stop. */
  function LineEnd(text: string, p: nat): (e: nat)
    requires p <= |text|
    ensures p <= e <= |text| && '\n' !in text[p..e]
    ensures e < |text| ==> text[e] == '\n'
    decreases |text| - p
  {
    if p == |text| || text[p] == '\n' then p
    else
      var e := LineEnd(text, p + 1);
      assert text[p..e] == [text[p]] + text[p + 1..e];
      e
  }

  /** The first position at or after `p` that is not whitespace, or the end
      of the text: where a greedy `\s*` starting at `p` stops. */
  function SpaceEnd(text: string, p: nat): (q: nat)
    requires p <= |text|
    ensures p <= q <= |text|
    ensures forall t :: p <= t < q ==> IsSpace(text[t])
    ensures q < |text| ==> !IsSpace(text[q])
    decreases |text| - p
  {
    if p == |text| || !IsSpace(text[p]) then p else SpaceEnd(text, p + 1)
  }

  /** The last position in `[lo, hi)` that is not a newline. */
  function LastNotNewline(text: string, lo: nat, hi: nat): (r: Option<nat>)
    requires hi <= |text|
    ensures r.Some? ==> lo <= r.value < hi && text[r.value] != '\n'
    ensures r.Some? ==> forall t :: r.value < t < hi ==> text[t] == '\n'
    ensures r.None? ==> forall t :: lo <= t < hi ==> text[t] == '\n'
    decreases hi
  {
    if hi <= lo then None
    else if text[hi - 1] != '\n' then Some(hi - 1)
    else LastNotNewline(text, lo, hi - 1)
  }

  /** The span of the value captured by `[：:]\s*([^\n]+)` at `j`. The
      greedy `\s*` takes the whole whitespace run; only when that run
      reaches the end of the text does it give characters back, until the
      value can start on one that is not a newline. */
  function ValueAt(text: string, j: nat): (r: Option<(nat, nat)>)
    requires j <= |text|
    ensures r.Some? ==> j < r.value.0 < r.value.1 <= |text|
    ensures r.Some? ==> '\n' !in text[r.value.0..r.value.1]
    ensures r.Some? ==> text[j] == '：' || text[j] == ':'
  {
    if j == |text| || (text[j] != '：' && text[j] != ':') then None
    else
      var q := SpaceEnd(text, j + 1);
      if q < |text| then Some((q, LineEnd(text, q)))
      else
        match LastNotNewline(text, j + 1, q)
        case None => None
        case Some(s) => Some((s, LineEnd(text, s)))
  }

  /** A match of `(alt1|alt2|...)[：:]\s*([^\n]+)`: the key and the
      captured value, and where the match ends. */
  datatype Hit = Hit(key: string, start: nat, stop: nat)

  /** The match starting at `i`, trying the alternatives in order. */
  function LabelAt(alts: seq<string>, text: string, i: nat): (r: Option<Hit>)
    requires i <= |text|
    ensures r.Some? ==> r.value.key in alts && IsPrefix(r.value.key, text[i..])
    ensures r.Some? ==> i < r.value.start < r.value.stop <= |text|
    ensures r.Some? ==> '\n' !in text[r.value.start..r.value.stop]
    decreases |alts|
  {
    if alts == [] then None
    else if IsPrefix(alts[0], text[i..]) && ValueAt(text, i + |alts[0]|).Some? then
      var span := ValueAt(text, i + |alts[0]|).value;
      Some(Hit(alts[0], span.0, span.1))
    else
      var r := LabelAt(alts[1..], text, i);
      assert r.Some? ==> r.value.key in alts;
      r
  }

  /** One element of `re.findall` for a two-group labelled pattern. */
  datatype Labelled = Labelled(key: string, value: string)

  /** `re.findall` from position `i` on. */
  function FindLabelled(alts: seq<string>, text: string, i: nat): (r: seq<Labelled>)
    requires i <= |text|
    ensures forall k :: 0 <= k < |r| ==> r[k].key in alts && r[k].value != [] && '\n' !in r[k].value
    decreases |text| - i
  {
    if i == |text| then []
    else
      match LabelAt(alts, text, i)
      case Some(h) => [Labelled(h.key, text[h.start..h.stop])] + FindLabelled(alts, text, h.stop)
      case None => FindLabelled(alts, text, i + 1)
  }

  /** `findall` finds nothing when no position starts a match. */
  lemma {:induction false} FindLabelledNone(alts: seq<string>, text: string, i: nat)
    requires i <= |text|
    requires forall p :: i <= p < |text| ==> LabelAt(alts, text, p).None?
    ensures FindLabelled(alts, text, i) == []
    decreases |text| - i
  {
    if i < |text| {
      FindLabelledStep(alts, text, i);
      FindLabelledNone(alts, text, i + 1);
    }
  }

  /** `findall` finds something when some position starts a match. */
  lemma {:induction false} FindLabelledSome(alts: seq<string>, text: string, i: nat, p: nat)
    requires i <= p < |text| && LabelAt(alts, text, p).Some?
    ensures FindLabelled(alts, text, i) != []
    decreases p - i
  {
    FindLabelledStep(alts, text, i);
    if LabelAt(alts, text, i).None? {
      FindLabelledSome(alts, text, i + 1, p);
    }
  }

  /** `findall` finds nothing exactly when no position starts a match. */
  lemma FindLabelledEmpty(alts: seq<string>, text: string, i: nat)
    requires i <= |text|
    ensures FindLabelled(alts, text, i) == [] <==>
      forall p :: i <= p < |text| ==> LabelAt(alts, text, p).None?
  {
    if forall p :: i <= p < |text| ==> LabelAt(alts, text, p).None? {
      FindLabelledNone(alts, text, i);
    } else {
      var p :| i <= p < |text| && LabelAt(alts, text, p).Some?;
      FindLabelledSome(alts, text, i, p);
    }
  }

  /** One step of `findall`: a failed attempt moves on one position, a
      match is found. */
  lemma FindLabelledStep(alts: seq<string>, text: string, i: nat)
    requires i < |text|
    ensures LabelAt(alts, text, i).None? ==> FindLabelled(alts, text, i) == FindLabelled(alts, text, i + 1)
    ensures LabelAt(alts, text, i).Some? ==> FindLabelled(alts, text, i) != []
  {
  }

  // ---------------------------------------------------------------------
  // `party.*?(应|应当|须)`

  /** Where the lazy `.*?(应|应当|须)` starting at `j` ends: just after the
      first `应` or `须` on the line (`应` wins over `应当`), if any. */
  function ObligationEnd(text: string, j: nat): (r: Option<nat>)
    requires j <= |text|
    ensures r.Some? ==> j < r.value <= |text| && (text[r.value - 1] == '应' || text[r.value - 1] == '须')
    ensures r.Some? ==> '\n' !in text[j..r.value]
    decreases |text| - j
  {
    if j == |text| || text[j] == '\n' then None
    else if text[j] == '应' || text[j] == '须' then Some(j + 1)
    else
      var r := ObligationEnd(text, j + 1);
      assert r.Some? ==> text[j..r.value] == [text[j]] + text[j + 1..r.value];
      r
  }

  /** The number of matches `re.findall(party + '.*?(应|应当|须)', text)`
      finds from `i` on. */
  function Obligations(party: string, text: string, i: nat): nat
    requires i <= |text|
    decreases |text| - i
  {
    if i == |text| then 0
    else if IsPrefix(party, text[i..]) && i + |party| <= |text| && ObligationEnd(text, i + |party|).Some? then
      1 + Obligations(party, text, ObligationEnd(text, i + |party|).value)
    else Obligations(party, text, i + 1)
  }

  /** A text without `应` and `须` has no obligation of any party. */
  lemma {:induction false} NoDutyWordNoObligation(party: string, text: string, i: nat)
    requires i <= |text| && '应' !in text && '须' !in text
    ensures Obligations(party, text, i) == 0
    decreases |text| - i
  {
    if i < |text| {
      NoDutyWordNoObligation(party, text, i + 1);
    }
  }

  // ---------------------------------------------------------------------
  // Two-character words with a run of `.` between

  /** One of the two-character `words` occurs at `m`. */
  predicate WordAt(text: string, words: seq<string>, m: nat) {
    m + 2 <= |text| && text[m..m + 2] in words
  }

  /** The last position `m` in `[lo, hi - 2]` at which one of the two-
      character `words` occurs: where a greedy `.*` followed by one of
      them stops. */
  function LastWord(text: string, words: seq<string>, lo: nat, hi: nat): (r: Option<nat>)
    requires hi <= |text|
    ensures r.Some? ==> lo <= r.value && r.value + 2 <= hi && WordAt(text, words, r.value)
    ensures r.Some? ==> forall m: nat :: r.value < m && m + 2 <= hi ==> !WordAt(text, words, m)
    ensures r.None? ==> forall m: nat :: lo <= m && m + 2 <= hi ==> !WordAt(text, words, m)
    decreases hi
  {
    if hi < lo + 2 then None
    else if text[hi - 2..hi] in words then Some(hi - 2)
    else LastWord(text, words, lo, hi - 1)
  }

  /** A first word at `i` and a second word at `m` further along the same
      line: a match of `(first).*(second)` or `(first).*?(second)` when
      every alternative is two characters long. */
  predicate PairAt(text: string, firsts: seq<string>, seconds: seq<string>, i: nat, m: nat) {
    i + 2 <= m && WordAt(text, firsts, i) && WordAt(text, seconds, m) && '\n' !in text[i + 2..m]
  }

  /** `re.search` of such a pattern succeeds. */
  predicate LineMatch(text: string, firsts: seq<string>, seconds: seq<string>) {
    exists i: nat, m: nat :: i < |text| && m < |text| && PairAt(text, firsts, seconds, i, m)
  }

  /** The groups of the match of `(first).*(second)` starting at `i`: the
      greedy `.*` makes the second group the last second word on the
      line. */
  function PairFrom(text: string, firsts: seq<string>, seconds: seq<string>, i: nat): (r: Option<(string, string)>)
    requires i <= |text|
    ensures r.Some? ==> r.value.0 in firsts && r.value.1 in seconds
  {
    if i + 2 <= |text| && text[i..i + 2] in firsts then
      match LastWord(text, seconds, i + 2, LineEnd(text, i + 2))
      case Some(m) => Some((text[i..i + 2], text[m..m + 2]))
      case None => None
    else None
  }

  /** The first element of `re.findall` for `(first).*(second)` from `i`
      on: the match with the leftmost start. */
  function FirstPair(text: string, firsts: seq<string>, seconds: seq<string>, i: nat): (r: Option<(string, string)>)
    requires i <= |text|
    ensures r.Some? ==> r.value.0 in firsts && r.value.1 in seconds
    decreases |text| - i
  {
    if i == |text| then None
    else if PairFrom(text, firsts, seconds, i).Some? then PairFrom(text, firsts, seconds, i)
    else FirstPair(text, firsts, seconds, i + 1)
  }

  /** The scan from `i` finds a pair exactly when a pair starts at `i` or
      later, provided no second word holds a newline. */
  lemma {:induction false} FirstPairFinds(text: string, firsts: seq<string>, seconds: seq<string>, i: nat)
    requires i <= |text|
    requires forall b :: 0 <= b < |seconds| ==> '\n' !in seconds[b]
    ensures FirstPair(text, firsts, seconds, i).Some? <==>
      exists p: nat, m: nat :: i <= p < |text| && m < |text| && PairAt(text, firsts, seconds, p, m)
    decreases |text| - i
  {
    if i < |text| {
      FirstPairFinds(text, firsts, seconds, i + 1);
      PairFromFinds(text, firsts, seconds, i);
      if exists p: nat, m: nat :: i <= p < |text| && m < |text| && PairAt(text, firsts, seconds, p, m) {
        var p: nat, m: nat :| i <= p < |text| && m < |text| && PairAt(text, firsts, seconds, p, m);
        if p > i {
          assert exists p: nat, m: nat :: i + 1 <= p < |text| && m < |text| && PairAt(text, firsts, seconds, p, m);
        }
      }
    }
  }

  /** A pair starts at `i` exactly when the greedy match from `i` exists. */
  lemma PairFromFinds(text: string, firsts: seq<string>, seconds: seq<string>, i: nat)
    requires i <= |text|
    requires forall b :: 0 <= b < |seconds| ==> '\n' !in seconds[b]
    ensures PairFrom(text, firsts, seconds, i).Some? <==> exists m: nat :: m < |text| && PairAt(text, firsts, seconds, i, m)
  {
    if i + 2 <= |text| && text[i..i + 2] in firsts {
      var e := LineEnd(text, i + 2);
      var r := LastWord(text, seconds, i + 2, e);
      if r.Some? {
        var m := r.value;
        NewlineFreePrefix(text, i + 2, m, e);
        assert PairAt(text, firsts, seconds, i, m);
      } else if exists m: nat :: m < |text| && PairAt(text, firsts, seconds, i, m) {
        var m: nat :| m < |text| && PairAt(text, firsts, seconds, i, m);
        WordWithinLine(text, seconds, i + 2, m, e);
        assert false;
      }
    }
  }

  lemma NewlineFreePrefix(text: string, p: nat, m: nat, e: nat)
    requires p <= m <= e <= |text| && '\n' !in text[p..e]
    ensures '\n' !in text[p..m]
  {
    assert text[p..m] == text[p..e][..m - p];
  }

  /** A second word after a newline-free run from `p` ends by the line
      end. */
  lemma WordWithinLine(text: string, seconds: seq<string>, p: nat, m: nat, e: nat)
    requires p <= m && m + 2 <= |text| && text[m..m + 2] in seconds && '\n' !in text[p..m]
    requires forall b :: 0 <= b < |seconds| ==> '\n' !in seconds[b]
    requires e == LineEnd(text, p)
    ensures m + 2 <= e
  {
    var b :| 0 <= b < |seconds| && seconds[b] == text[m..m + 2];
    assert forall t :: p <= t < m ==> text[t] == text[p..m][t - p];
    assert forall t :: m <= t < m + 2 ==> text[t] == seconds[b][t - m];
  }

  // ---------------------------------------------------------------------
  // `(免责|不承担.*责任|概不负责)`

  /** Where the exemption match starting at `i` ends, if one starts there. */
  function ExemptionEnd(text: string, i: nat): (r: Option<nat>)
    requires i <= |text|
    ensures r.Some? ==> i < r.value <= |text|
  {
    if IsPrefix("免责", text[i..]) then Some(i + 2)
    else if IsPrefix("不承担", text[i..]) && LastWord(text, ["责任"], i + 3, LineEnd(text, i + 3)).Some? then
      Some(LastWord(text, ["责任"], i + 3, LineEnd(text, i + 3)).value + 2)
    else if IsPrefix("概不负责", text[i..]) then Some(i + 4)
    else None
  }

  /** The number of matches `re.findall` finds from `i` on. */
  function Exemptions(text: string, i: nat): nat
    requires i <= |text|
    decreases |text| - i
  {
    if i == |text| then 0
    else match ExemptionEnd(text, i)
      case Some(e) => 1 + Exemptions(text, e)
      case None => Exemptions(text, i + 1)
  }

  /** An exemption is found where `免责` occurs. */
  lemma {:induction false} ExemptionFound(text: string, i: nat, p: nat)
    requires i <= p < |text| && IsPrefix("免责", text[p..])
    ensures Exemptions(text, i) > 0
    decreases |text| - i
  {
    if i < p && ExemptionEnd(text, i).None? {
      ExemptionFound(text, i + 1, p);
    }
  }

  // ---------------------------------------------------------------------
  // `等(?!.*等.*具体)`

  /** The negative look-ahead's body `.*等.*具体` matches at `s`: a further
      `等` and then `具体` on the same line. */
  predicate EtcQualified(text: string, s: nat) {
    exists j: nat, k: nat :: s <= j < k < |text| && k + 2 <= |text| && text[j] == '等' && text[k..k + 2] == "具体"
      && '\n' !in text[s..k]
  }

  /** `re.search` of `等(?!.*等.*具体)` succeeds. */
  predicate EtcUnqualified(text: string) {
    exists i: nat :: i < |text| && text[i] == '等' && !EtcQualified(text, i + 1)
  }

  /** The look-ahead never rules out the last `等` of a text, so the
      pattern matches exactly the texts that contain `等` at all. */
  lemma EtcMatchesAnyEtc(text: string)
    ensures EtcUnqualified(text) <==> '等' in text
  {
    if '等' in text {
      var i :| 0 <= i < |text| && text[i] == '等';
      EtcFrom(text, i);
    }
  }

  lemma {:induction false} EtcFrom(text: string, i: nat)
    requires i < |text| && text[i] == '等'
    ensures EtcUnqualified(text)
    decreases |text| - i
  {
    if EtcQualified(text, i + 1) {
      var j: nat, k: nat :| i + 1 <= j < k && k + 2 <= |text| && text[j] == '等' && text[k..k + 2] == "具体"
        && '\n' !in text[i + 1..k];
      EtcFrom(text, j);
    }
  }
}
