/** The string primitives the rule engine is written with, each with
    Python's meaning: `p in s`, `str.count`, `str.split(sep)`, `sep.join`,
    `str.strip`, `str.lower` and `str(n)` for a natural number. */
module Text {

  /** A character for which Python's `str.isspace()` holds; the `\s` class
      of a `re` pattern over `str` is the same set. */
  predicate IsSpace(c: char) {
    c == ' ' || ('\t' <= c <= '\r') || ('\U{1C}' <= c <= '\U{1F}')
    || c == '\U{85}' || c == '\U{A0}' || c == '\U{1680}'
    || ('\U{2000}' <= c <= '\U{200A}') || c == '\U{2028}' || c == '\U{2029}'
    || c == '\U{202F}' || c == '\U{205F}' || c == '\U{3000}'
  }

  predicate IsPrefix(p: string, s: string) {
    |p| <= |s| && s[..|p|] == p
  }

  /** Python's `p in s`: `p` occurs somewhere in `s` (the empty string
      occurs in every string). */
  predicate Contains(s: string, p: string)
    decreases |s|
  {
    IsPrefix(p, s) || (|s| > 0 && Contains(s[1..], p))
  }

  /** `Contains` agrees with "some position of `s` starts an occurrence". */
  lemma {:induction false} ContainsAt(s: string, p: string, i: nat)
    requires i <= |s| && IsPrefix(p, s[i..])
    ensures Contains(s, p)
    decreases i
  {
    if i > 0 {
      assert s[1..][i - 1..] == s[i..];
      ContainsAt(s[1..], p, i - 1);
    } else {
      assert s[0..] == s;
    }
  }

  /** A string that lacks one of the characters of `p` does not contain `p`. */
  lemma {:induction false} NotContainsChar(s: string, p: string, k: nat)
    requires k < |p| && p[k] !in s
    ensures !Contains(s, p)
    decreases |s|
  {
    if |s| > 0 {
      NotContainsChar(s[1..], p, k);
    }
  }

  /** Python's `s.count(p)`: non-overlapping occurrences taken from the
      left; `s.count("")` is `len(s) + 1`. */
  function Count(s: string, p: string): nat
    decreases |s|
  {
    if p == [] then |s| + 1
    else if IsPrefix(p, s) then 1 + Count(s[|p|..], p)
    else if s == [] then 0
    else Count(s[1..], p)
  }

  /** `p in s` exactly when `s.count(p)` is positive. */
  lemma {:induction false} CountPositive(s: string, p: string)
    ensures Contains(s, p) <==> Count(s, p) > 0
    decreases |s|
  {
    if p != [] && !IsPrefix(p, s) && s != [] {
      CountPositive(s[1..], p);
    }
  }

  /** Python's `s.split(sep)` for a one-character separator: the pieces
      between separators, empty pieces included; never an empty list. */
  function Split(s: string, sep: char): (parts: seq<string>)
    ensures |parts| >= 1
    ensures forall k :: 0 <= k < |parts| ==> sep !in parts[k]
    decreases |s|
  {
    if s == [] then [""]
    else
      var rest := Split(s[1..], sep);
      if s[0] == sep then [""] + rest
      else [[s[0]] + rest[0]] + rest[1..]
  }

  /** Python's `sep.join(parts)`. */
  function Join(parts: seq<string>, sep: string): string
    decreases |parts|
  {
    if |parts| == 0 then ""
    else if |parts| == 1 then parts[0]
    else parts[0] + sep + Join(parts[1..], sep)
  }

  lemma JoinCons(x: string, rest: seq<string>, sep: string)
    requires |rest| >= 1
    ensures Join([x + rest[0]] + rest[1..], sep) == x + Join(rest, sep)
  {
    var parts := [x + rest[0]] + rest[1..];
    assert parts[1..] == rest[1..];
  }

  /** Joining the pieces of a split with the separator gives the text back. */
  lemma {:induction false} JoinSplit(s: string, sep: char)
    ensures Join(Split(s, sep), [sep]) == s
    decreases |s|
  {
    if s != [] {
      var rest := Split(s[1..], sep);
      JoinSplit(s[1..], sep);
      if s[0] == sep {
        assert ([""] + rest)[1..] == rest;
      } else {
        JoinCons([s[0]], rest, [sep]);
      }
    }
  }

  /** `s` without its leading whitespace. */
  function TrimLeft(s: string): string
    decreases |s|
  {
    if s != [] && IsSpace(s[0]) then TrimLeft(s[1..]) else s
  }

  /** `TrimLeft` drops a prefix of whitespace and stops at the first
      character that is not whitespace. */
  lemma {:induction false} TrimLeftSpec(s: string)
    ensures |TrimLeft(s)| <= |s| && TrimLeft(s) == s[|s| - |TrimLeft(s)|..]
    ensures forall t :: 0 <= t < |s| - |TrimLeft(s)| ==> IsSpace(s[t])
    ensures TrimLeft(s) == [] || !IsSpace(TrimLeft(s)[0])
    decreases |s|
  {
    if s != [] && IsSpace(s[0]) {
      TrimLeftSpec(s[1..]);
      assert s[1..][|s| - 1 - |TrimLeft(s)|..] == s[|s| - |TrimLeft(s)|..];
    }
  }

  /** `s` without its trailing whitespace. */
  function TrimRight(s: string): string
    decreases |s|
  {
    if s != [] && IsSpace(s[|s| - 1]) then TrimRight(s[..|s| - 1]) else s
  }

  /** `TrimRight` drops a suffix of whitespace and stops at the last
      character that is not whitespace. */
  lemma {:induction false} TrimRightSpec(s: string)
    ensures |TrimRight(s)| <= |s| && TrimRight(s) == s[..|TrimRight(s)|]
    ensures forall t :: |TrimRight(s)| <= t < |s| ==> IsSpace(s[t])
    ensures TrimRight(s) == [] || !IsSpace(TrimRight(s)[|TrimRight(s)| - 1])
    decreases |s|
  {
    if s != [] && IsSpace(s[|s| - 1]) {
      TrimRightSpec(s[..|s| - 1]);
      assert s[..|s| - 1][..|TrimRight(s)|] == s[..|TrimRight(s)|];
    }
  }

  /** Python's `s.strip()`: no whitespace at either end. */
  function Strip(s: string): (r: string)
    ensures r == [] || (!IsSpace(r[0]) && !IsSpace(r[|r| - 1]))
  {
    var l := TrimLeft(s);
    TrimLeftSpec(s);
    TrimRightSpec(l);
    TrimRight(l)
  }

  /** A line strips to nothing exactly when it is all whitespace. */
  lemma StripBlank(s: string)
    ensures Strip(s) == [] <==> forall t :: 0 <= t < |s| ==> IsSpace(s[t])
  {
    var l := TrimLeft(s);
    TrimLeftSpec(s);
    TrimRightSpec(l);
    if Strip(s) == [] {
      assert l == [];
    }
  }

  function LowerChar(c: char): char {
    if 'A' <= c <= 'Z' then (c as int + 32) as char else c
  }

  /** `s.lower()` on the ASCII letters. */
  function Lower(s: string): (r: string)
    ensures |r| == |s| && forall i :: 0 <= i < |s| ==> r[i] == LowerChar(s[i])
  {
    seq(|s|, i requires 0 <= i < |s| => LowerChar(s[i]))
  }

  function Min(a: int, b: int): int {
    if a <= b then a else b
  }

  function DigitChar(d: nat): (c: char)
    requires d < 10
    ensures '0' <= c <= '9'
  {
    ('0' as int + d) as char
  }

  /** `str(n)`: the decimal digits of `n`, most significant first. */
  function NatToString(n: nat): (r: string)
    ensures |r| >= 1 && forall i :: 0 <= i < |r| ==> '0' <= r[i] <= '9'
    decreases n
  {
    if n < 10 then [DigitChar(n)] else NatToString(n / 10) + [DigitChar(n % 10)]
  }

  /** The value of a string of decimal digits (`int(s)`). */
  function DecimalValue(s: string): nat
    requires forall i :: 0 <= i < |s| ==> '0' <= s[i] <= '9'
    decreases |s|
  {
    if s == [] then 0 else DecimalValue(s[..|s| - 1]) * 10 + (s[|s| - 1] as int - '0' as int)
  }

  /** `int(str(n)) == n`: the decimal text of a count determines the count. */
  lemma {:induction false} DecimalRoundTrip(n: nat)
    ensures DecimalValue(NatToString(n)) == n
    decreases n
  {
    if n >= 10 {
      var s := NatToString(n);
      assert s[..|s| - 1] == NatToString(n / 10);
      DecimalRoundTrip(n / 10);
    }
  }

  /** How many of `words` occur in `text` (a word counts once however often
      it occurs): Python's `sum(1 for w in words if w in text)`. */
  function CountPresent(words: seq<string>, text: string): (n: nat)
    ensures n <= |words|
    ensures n == 0 <==> forall k :: 0 <= k < |words| ==> !Contains(text, words[k])
    ensures n == |words| <==> forall k :: 0 <= k < |words| ==> Contains(text, words[k])
    decreases |words|
  {
    if words == [] then 0
    else
      assert forall k :: 1 <= k < |words| ==> words[k] == words[1..][k - 1];
      (if Contains(text, words[0]) then 1 else 0) + CountPresent(words[1..], text)
  }

  /** An occurrence of `p` in `s` starts at some position. */
  lemma {:induction false} ContainsIndex(s: string, p: string) returns (i: nat)
    requires Contains(s, p)
    ensures i <= |s| && IsPrefix(p, s[i..])
    decreases |s|
  {
    if IsPrefix(p, s) {
      i := 0;
    } else {
      var j := ContainsIndex(s[1..], p);
      assert s[1..][j..] == s[j + 1..];
      i := j + 1;
    }
  }

  /** Text around a string keeps its occurrences. */
  lemma ContainsExtend(a: string, s: string, b: string, p: string)
    requires Contains(s, p)
    ensures Contains(a + s + b, p)
  {
    var i := ContainsIndex(s, p);
    var t := a + s + b;
    assert t[|a| + i..][..|p|] == s[i..][..|p|];
    ContainsAt(t, p, |a| + i);
  }

  /** The words that occur in the text (`present`) or those that do not,
      in their order: the two lists a loop builds with `if w in text`. */
  function Kept(words: seq<string>, text: string, present: bool): (kept: seq<string>)
    ensures |kept| <= |words|
    decreases |words|
  {
    if words == [] then []
    else
      var last := words[|words| - 1];
      Kept(words[..|words| - 1], text, present) + (if Contains(text, last) == present then [last] else [])
  }

  /** The present and the absent words together are the words. */
  lemma {:induction false} KeptPartition(words: seq<string>, text: string)
    ensures multiset(Kept(words, text, true)) + multiset(Kept(words, text, false)) == multiset(words)
    decreases |words|
  {
    if words != [] {
      var init := words[..|words| - 1];
      KeptPartition(init, text);
      assert words == init + [words[|words| - 1]];
    }
  }

  /** Every word kept as present occurs in the text and every word kept as
      absent does not. */
  lemma {:induction false} KeptSound(words: seq<string>, text: string, present: bool)
    ensures forall k :: 0 <= k < |Kept(words, text, present)| ==> Contains(text, Kept(words, text, present)[k]) == present
    decreases |words|
  {
    if words != [] {
      KeptSound(words[..|words| - 1], text, present);
    }
  }

  /** No word is absent exactly when every word occurs. */
  lemma {:induction false} NoneAbsent(words: seq<string>, text: string)
    ensures Kept(words, text, false) == [] <==> forall k :: 0 <= k < |words| ==> Contains(text, words[k])
    decreases |words|
  {
    if words != [] {
      var init := words[..|words| - 1];
      NoneAbsent(init, text);
      assert forall k :: 0 <= k < |init| ==> init[k] == words[k];
    }
  }
}
