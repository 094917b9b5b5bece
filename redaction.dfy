/**
 * Masking of sensitive values inside a log message (`desensitize_value`,
 * `desensitize_data` and its `header_replacer` in the logging template).
 *
 * The pattern built for each keyword is
 *     (['"]?KEY['"]?[=:]\s?)(['"]?)(.*?['"]?[^;,]+)
 * matched case-insensitively by `re.sub`. It is modelled here as Python's backtracking
 * matcher runs it: every optional element first takes its character and gives it up only
 * when the rest of the pattern fails, `.*?` first takes nothing and then one more
 * character (never a newline) at a time, and `[^;,]+` takes the longest run it can.
 */
module Redaction {
  import opened Wrappers
  import opened Text

  /** The five asterisks that replace the middle of a long value. */
  const Stars := "*****"

  /**
   * `desensitize_value`: a value of at most 6 characters is kept; a longer one keeps its
   * first 3 characters and its last 3 (4 when it ends in a quote) around five asterisks.
   */
  function DesensitizeValue(value: string): (r: string)
    ensures |value| <= 6 ==> r == value
    ensures |value| > 6 ==>
              var keep := if IsQuote(value[|value| - 1]) then 4 else 3;
              && |r| == 8 + keep
              && r[..3] == value[..3]
              && r[3..8] == Stars
              && r[8..] == value[|value| - keep..]
  {
    if |value| > 6 then
      var end := if IsQuote(value[|value| - 1]) then value[|value| - 4..] else value[|value| - 3..];
      value[..3] + Stars + end
    else
      value
  }

  /** A masked value is 11 or 12 characters long whatever the length of the original. */
  lemma MaskedLength(value: string)
    requires |value| > 6
    ensures |DesensitizeValue(value)| == 11 || |DesensitizeValue(value)| == 12
    ensures IsQuote(value[|value| - 1]) <==> |DesensitizeValue(value)| == 12
  {
  }

  /** Masking keeps the last character, so a closing quote survives it. */
  lemma MaskKeepsLastChar(value: string)
    requires |value| > 0
    ensures |DesensitizeValue(value)| > 0
    ensures DesensitizeValue(value)[|DesensitizeValue(value)| - 1] == value[|value| - 1]
  {
    var r := DesensitizeValue(value);
    if |value| > 6 {
      var keep := if IsQuote(value[|value| - 1]) then 4 else 3;
      assert r[8..][keep - 1] == r[|r| - 1];
    }
  }

  /** Masking an already masked value changes nothing. */
  lemma MaskIdempotent(value: string)
    ensures DesensitizeValue(DesensitizeValue(value)) == DesensitizeValue(value)
  {
    if |value| > 6 {
      var r := DesensitizeValue(value);
      MaskKeepsLastChar(value);
      var keep := if IsQuote(value[|value| - 1]) then 4 else 3;
      var rr := DesensitizeValue(r);
      assert rr[..3] == r[..3];
      assert rr[8..] == r[|r| - keep..] == r[8..];
      assert rr == rr[..3] + rr[3..8] + rr[8..];
      assert r == r[..3] + r[3..8] + r[8..];
    }
  }

  /* ---------------------------------------------------------------------------------- */
  /* The pattern of one keyword                                                          */

  /**
   * A keyword the pattern reads as literal text: ASCII letters, digits, `_` and `-` only,
   * none of which is a regular-expression metacharacter.
   */
  predicate IsPlainKeyword(kw: string) {
    forall i :: 0 <= i < |kw| ==> IsAsciiLetter(kw[i]) || IsAsciiDigit(kw[i]) || kw[i] == '_' || kw[i] == '-'
  }

  /**
   * Whether text character `c` matches keyword character `k` under `re.IGNORECASE`:
   * their lower-case forms agree, or `c` is one of the non-ASCII characters Python's
   * matcher folds onto `i`, `k` or `s` (dotted capital I, dotless i, Kelvin sign, long s).
   */
  predicate FoldEq(c: char, k: char) {
    || Lower(c) == Lower(k)
    || (Lower(k) == 'i' && (c == '\U{130}' || c == '\U{131}'))
    || (Lower(k) == 'k' && c == '\U{212A}')
    || (Lower(k) == 's' && c == '\U{17F}')
  }

  /** The keyword occurs, ignoring case, at position `i` of `s`. */
  predicate KeyAt(s: string, kw: string, i: nat) {
    i + |kw| <= |s| && forall k :: 0 <= k < |kw| ==> FoldEq(s[i + k], kw[k])
  }

  predicate IsDelimiter(c: char) {
    c == ';' || c == ','
  }

  predicate IsSeparator(c: char) {
    c == '=' || c == ':'
  }

  /** End of the longest run of non-delimiters that starts at `i` (`[^;,]*`). */
  function RunEnd(s: string, i: nat): (e: nat)
    requires i <= |s|
    ensures i <= e <= |s|
    ensures forall k :: i <= k < e ==> !IsDelimiter(s[k])
    ensures e == |s| || IsDelimiter(s[e])
    decreases |s| - i
  {
    if i == |s| || IsDelimiter(s[i]) then i else RunEnd(s, i + 1)
  }

  /** `['"]?[^;,]+` at position `i`: where it ends on its first success, if any. */
  function TailEnd(s: string, i: nat): (e: Option<nat>)
    requires i <= |s|
    ensures e.Some? ==> i < e.value <= |s|
  {
    if i < |s| && IsQuote(s[i]) && RunEnd(s, i + 1) > i + 1 then Some(RunEnd(s, i + 1))
    else if RunEnd(s, i) > i then Some(RunEnd(s, i))
    else None
  }

  /**
   * Group 3, `.*?['"]?[^;,]+`, from position `q` once `.*?` has taken `k` characters:
   * the rest of the group is tried, and on failure `.*?` takes one more character,
   * which `.` allows unless it is a newline.
   */
  function LazyValue(s: string, q: nat, k: nat): (e: Option<nat>)
    requires q + k <= |s|
    ensures e.Some? ==> q + k < e.value <= |s|
    decreases |s| - (q + k)
  {
    match TailEnd(s, q + k)
    case Some(e) => Some(e)
    case None => if q + k < |s| && s[q + k] != '\n' then LazyValue(s, q, k + 1) else None
  }

  /** First position at or after `i` that holds a non-delimiter (or the end). */
  function SkipDelimiters(s: string, i: nat): (j: nat)
    requires i <= |s|
    ensures i <= j <= |s|
    ensures forall k :: i <= k < j ==> IsDelimiter(s[k])
    ensures j < |s| ==> !IsDelimiter(s[j])
    decreases |s| - i
  {
    if i < |s| && IsDelimiter(s[i]) then SkipDelimiters(s, i + 1) else i
  }

  /**
   * What group 3 amounts to: skip any delimiters, then take the longest run of
   * non-delimiters, newlines included; there is no value when only delimiters remain.
   */
  function ValueEnd(s: string, q: nat): (e: Option<nat>)
    requires q <= |s|
    ensures e.Some? ==> q < e.value <= |s| && !IsDelimiter(s[e.value - 1])
    ensures e.Some? ==> e.value == |s| || IsDelimiter(s[e.value])
  {
    var j := SkipDelimiters(s, q);
    if j == |s| then None else Some(RunEnd(s, j))
  }

  /** The backtracking search of group 3 finds exactly `ValueEnd`. */
  lemma {:induction false} LazyValueIsValueEnd(s: string, q: nat, k: nat)
    requires q + k <= |s|
    ensures LazyValue(s, q, k) == ValueEnd(s, q + k)
    decreases |s| - (q + k)
  {
    var i := q + k;
    if i < |s| && IsDelimiter(s[i]) {
      LazyValueIsValueEnd(s, q, k + 1);
    } else if i < |s| {
      assert SkipDelimiters(s, i) == i;
      if IsQuote(s[i]) && RunEnd(s, i + 1) > i + 1 {
        assert RunEnd(s, i) == RunEnd(s, i + 1);
      }
    }
  }

  /**
   * One match: group 1 (the key part) is `s[start..keyEnd]`, group 2 (the optional
   * opening quote) is `s[keyEnd..valueStart]`, group 3 (the value) is `s[valueStart..end]`.
   */
  datatype Match = Match(start: nat, keyEnd: nat, valueStart: nat, end: nat)

  /** The groups follow each other inside `s`, and group 1 and group 3 are not empty. */
  predicate Ordered(s: string, m: Match) {
    m.start < m.keyEnd <= m.valueStart < m.end <= |s|
  }

  /** The shape every match has, whichever alternatives the matcher took. */
  ghost predicate Shaped(s: string, m: Match) {
    && m.start < m.keyEnd <= m.valueStart <= m.keyEnd + 1
    && m.valueStart < m.end <= |s|
    && (m.valueStart == m.keyEnd + 1 ==> IsQuote(s[m.keyEnd]))
    && (m.end == |s| || IsDelimiter(s[m.end]))
    && !IsDelimiter(s[m.end - 1])
  }

  /** Alternation: the earlier alternative wins whenever it matches at all. */
  function OrElse(first: Option<Match>, second: Option<Match>): (r: Option<Match>)
    ensures r.Some? <==> first.Some? || second.Some?
    ensures first.Some? ==> r == first
    ensures first.None? ==> r == second
  {
    if first.Some? then first else second
  }

  /**
   * The elements of the pattern in the order the matcher tries them: `['"]?`, the keyword,
   * `['"]?`, `[=:]` and `\s?` make up group 1, `['"]?` is group 2 and
   * `.*?['"]?[^;,]+` is group 3.
   */
  datatype Element = LeadQuote | Keyword | CloseQuote | Separator | Space | OpenQuote | Value {
    function Rank(): nat {
      match this
      case LeadQuote => 6
      case Keyword => 5
      case CloseQuote => 4
      case Separator => 3
      case Space => 2
      case OpenQuote => 1
      case Value => 0
    }
  }

  /**
   * What holds when element `e` is about to be tried at `pos`, the match having begun at
   * `start`; from `OpenQuote` on, group 1 is known to end at `keyEnd`.
   */
  ghost predicate Ready(s: string, e: Element, start: nat, pos: nat, keyEnd: nat) {
    && start <= pos <= |s|
    && (e == Space ==> start < pos)
    && (e == OpenQuote ==> start < keyEnd == pos)
    && (e == Value ==> start < keyEnd <= pos <= keyEnd + 1 && (pos == keyEnd + 1 ==> IsQuote(s[keyEnd])))
  }

  /**
   * The rest of the pattern from element `e` at position `pos`: an optional element first
   * takes its character when there is one, and goes without it only if that fails.
   */
  function Try(s: string, kw: string, e: Element, start: nat, pos: nat, keyEnd: nat): (m: Option<Match>)
    requires Ready(s, e, start, pos, keyEnd)
    ensures m.Some? ==> Ordered(s, m.value) && m.value.start == start
    decreases e.Rank()
  {
    match e
    case LeadQuote =>
      OrElse(
        if pos < |s| && IsQuote(s[pos]) then Try(s, kw, Keyword, start, pos + 1, keyEnd) else None,
        Try(s, kw, Keyword, start, pos, keyEnd))
    case Keyword =>
      if KeyAt(s, kw, pos) then Try(s, kw, CloseQuote, start, pos + |kw|, keyEnd) else None
    case CloseQuote =>
      OrElse(
        if pos < |s| && IsQuote(s[pos]) then Try(s, kw, Separator, start, pos + 1, keyEnd) else None,
        Try(s, kw, Separator, start, pos, keyEnd))
    case Separator =>
      if pos < |s| && IsSeparator(s[pos]) then Try(s, kw, Space, start, pos + 1, keyEnd) else None
    case Space =>
      OrElse(
        if pos < |s| && IsSpace(s[pos]) then Try(s, kw, OpenQuote, start, pos + 1, pos + 1) else None,
        Try(s, kw, OpenQuote, start, pos, pos))
    case OpenQuote =>
      OrElse(
        if pos < |s| && IsQuote(s[pos]) then Try(s, kw, Value, start, pos + 1, keyEnd) else None,
        Try(s, kw, Value, start, pos, keyEnd))
    case Value =>
      match LazyValue(s, pos, 0)
      case Some(end) => Some(Match(start, keyEnd, pos, end))
      case None => None
  }

  /**
   * The pattern of keyword `kw` tried at position `p` (what `re.search` checks at each
   * position): a match starts with the keyword, or with a quote and then the keyword.
   */
  function MatchAt(s: string, kw: string, p: nat): (m: Option<Match>)
    requires p <= |s|
    ensures m.Some? ==> Ordered(s, m.value) && m.value.start == p
  {
    Try(s, kw, LeadQuote, p, p, 0)
  }

  /**
   * The lemmas `...Shape` say that whatever the matcher returns from a given element on
   * has the shape `Shaped`; each follows one element to the next.
   */
  lemma ValueShape(s: string, kw: string, start: nat, pos: nat, keyEnd: nat)
    requires Ready(s, Value, start, pos, keyEnd) && Try(s, kw, Value, start, pos, keyEnd).Some?
    ensures Shaped(s, Try(s, kw, Value, start, pos, keyEnd).value)
  {
    LazyValueIsValueEnd(s, pos, 0);
  }

  lemma OpenQuoteShape(s: string, kw: string, start: nat, pos: nat, keyEnd: nat)
    requires Ready(s, OpenQuote, start, pos, keyEnd) && Try(s, kw, OpenQuote, start, pos, keyEnd).Some?
    ensures Shaped(s, Try(s, kw, OpenQuote, start, pos, keyEnd).value)
  {
    if pos < |s| && IsQuote(s[pos]) && Try(s, kw, Value, start, pos + 1, keyEnd).Some? {
      ValueShape(s, kw, start, pos + 1, keyEnd);
    } else {
      ValueShape(s, kw, start, pos, keyEnd);
    }
  }

  lemma SpaceShape(s: string, kw: string, start: nat, pos: nat)
    requires Ready(s, Space, start, pos, 0) && Try(s, kw, Space, start, pos, 0).Some?
    ensures Shaped(s, Try(s, kw, Space, start, pos, 0).value)
  {
    if pos < |s| && IsSpace(s[pos]) && Try(s, kw, OpenQuote, start, pos + 1, pos + 1).Some? {
      OpenQuoteShape(s, kw, start, pos + 1, pos + 1);
    } else {
      OpenQuoteShape(s, kw, start, pos, pos);
    }
  }

  lemma SeparatorShape(s: string, kw: string, start: nat, pos: nat)
    requires start <= pos <= |s| && Try(s, kw, Separator, start, pos, 0).Some?
    ensures Shaped(s, Try(s, kw, Separator, start, pos, 0).value)
  {
    SpaceShape(s, kw, start, pos + 1);
  }

  lemma CloseQuoteShape(s: string, kw: string, start: nat, pos: nat)
    requires start <= pos <= |s| && Try(s, kw, CloseQuote, start, pos, 0).Some?
    ensures Shaped(s, Try(s, kw, CloseQuote, start, pos, 0).value)
  {
    if pos < |s| && IsQuote(s[pos]) && Try(s, kw, Separator, start, pos + 1, 0).Some? {
      SeparatorShape(s, kw, start, pos + 1);
    } else {
      SeparatorShape(s, kw, start, pos);
    }
  }

  lemma KeywordShape(s: string, kw: string, start: nat, pos: nat)
    requires start <= pos <= |s| && Try(s, kw, Keyword, start, pos, 0).Some?
    ensures Shaped(s, Try(s, kw, Keyword, start, pos, 0).value) && KeyAt(s, kw, pos)
  {
    CloseQuoteShape(s, kw, start, pos + |kw|);
  }

  /**
   * Every match has the shape of the pattern: group 1 is not empty, group 2 is empty or
   * one quote, the value is not empty, ends with a non-delimiter and stops just before a
   * `;` or `,` or at the end; and the match starts with the keyword, or with a quote and
   * then the keyword.
   */
  lemma MatchShape(s: string, kw: string, p: nat)
    requires p <= |s| && MatchAt(s, kw, p).Some?
    ensures Shaped(s, MatchAt(s, kw, p).value)
    ensures KeyAt(s, kw, p) || (p < |s| && IsQuote(s[p]) && KeyAt(s, kw, p + 1))
  {
    if p < |s| && IsQuote(s[p]) && Try(s, kw, Keyword, p, p + 1, 0).Some? {
      KeywordShape(s, kw, p, p + 1);
    } else {
      KeywordShape(s, kw, p, p);
    }
  }

  /**
   * The lemmas `...From` follow the matcher through the pattern when every optional
   * element finds its character where one is present and some non-delimiter is left for
   * the value. From the value on: it is what `ValueEnd` says.
   */
  lemma ValueFrom(s: string, kw: string, start: nat, keyEnd: nat, q: nat)
    requires Ready(s, Value, start, q, keyEnd)
    requires ValueEnd(s, q).Some?
    ensures Try(s, kw, Value, start, q, keyEnd) == Some(Match(start, keyEnd, q, ValueEnd(s, q).value))
  {
    LazyValueIsValueEnd(s, q, 0);
  }

  /** From `\s?` on: the space is taken when present, then the opening quote. */
  lemma SpaceFrom(s: string, kw: string, start: nat, pos: nat, keyEnd: nat, q: nat)
    requires start < pos <= |s|
    requires keyEnd == (if pos < |s| && IsSpace(s[pos]) then pos + 1 else pos)
    requires q == (if keyEnd < |s| && IsQuote(s[keyEnd]) then keyEnd + 1 else keyEnd)
    requires ValueEnd(s, q).Some?
    ensures Try(s, kw, Space, start, pos, 0) == Some(Match(start, keyEnd, q, ValueEnd(s, q).value))
  {
    ValueFrom(s, kw, start, keyEnd, q);
    assert Try(s, kw, OpenQuote, start, keyEnd, keyEnd) == Some(Match(start, keyEnd, q, ValueEnd(s, q).value));
  }

  /** From the closing quote after the keyword on, through `[=:]`. */
  lemma CloseQuoteFrom(s: string, kw: string, start: nat, pos: nat, j: nat, keyEnd: nat, q: nat)
    requires start <= pos <= |s|
    requires j == (if pos < |s| && IsQuote(s[pos]) then pos + 1 else pos)
    requires j < |s| && IsSeparator(s[j])
    requires keyEnd == (if j + 1 < |s| && IsSpace(s[j + 1]) then j + 2 else j + 1)
    requires q == (if keyEnd < |s| && IsQuote(s[keyEnd]) then keyEnd + 1 else keyEnd)
    requires ValueEnd(s, q).Some?
    ensures Try(s, kw, CloseQuote, start, pos, 0) == Some(Match(start, keyEnd, q, ValueEnd(s, q).value))
  {
    SpaceFrom(s, kw, start, j + 1, keyEnd, q);
    assert Try(s, kw, Separator, start, j, 0) == Some(Match(start, keyEnd, q, ValueEnd(s, q).value));
  }

  /** From the keyword on. */
  lemma KeywordFrom(s: string, kw: string, start: nat, i: nat, j: nat, keyEnd: nat, q: nat)
    requires start <= i && KeyAt(s, kw, i)
    requires j == (if i + |kw| < |s| && IsQuote(s[i + |kw|]) then i + |kw| + 1 else i + |kw|)
    requires j < |s| && IsSeparator(s[j])
    requires keyEnd == (if j + 1 < |s| && IsSpace(s[j + 1]) then j + 2 else j + 1)
    requires q == (if keyEnd < |s| && IsQuote(s[keyEnd]) then keyEnd + 1 else keyEnd)
    requires ValueEnd(s, q).Some?
    ensures Try(s, kw, Keyword, start, i, 0) == Some(Match(start, keyEnd, q, ValueEnd(s, q).value))
  {
    CloseQuoteFrom(s, kw, start, i + |kw|, j, keyEnd, q);
  }

  /**
   * A match at `p` when the keyword and `[=:]` are there: every optional element takes its
   * character where one is present, and, provided some non-delimiter remains, the value
   * skips any `;` and `,` and then runs up to the next `;`, `,` or the end of the message.
   */
  lemma KeyValueMatch(s: string, kw: string, p: nat, i: nat, j: nat, keyEnd: nat, q: nat)
    requires p < |s|
    requires i == (if IsQuote(s[p]) then p + 1 else p)
    requires KeyAt(s, kw, i)
    requires j == (if i + |kw| < |s| && IsQuote(s[i + |kw|]) then i + |kw| + 1 else i + |kw|)
    requires j < |s| && IsSeparator(s[j])
    requires keyEnd == (if j + 1 < |s| && IsSpace(s[j + 1]) then j + 2 else j + 1)
    requires q == (if keyEnd < |s| && IsQuote(s[keyEnd]) then keyEnd + 1 else keyEnd)
    requires ValueEnd(s, q).Some?
    ensures MatchAt(s, kw, p) == Some(Match(p, keyEnd, q, ValueEnd(s, q).value))
  {
    var m := Some(Match(p, keyEnd, q, ValueEnd(s, q).value));
    KeywordFrom(s, kw, p, i, j, keyEnd, q);
    if IsQuote(s[p]) {
      assert Try(s, kw, LeadQuote, p, p, 0) == OrElse(m, Try(s, kw, Keyword, p, p, 0));
    } else {
      assert Try(s, kw, LeadQuote, p, p, 0) == OrElse(None, m);
    }
  }

  /* ---------------------------------------------------------------------------------- */
  /* Substitution                                                                        */

  /**
   * `header_replacer`: the key part and the opening quote are kept and the value is
   * masked; when a group is empty the matched text is kept as it is.
   */
  function HeaderReplacer(s: string, m: Match): (r: string)
    requires m.start <= m.keyEnd <= m.valueStart <= m.end <= |s|
    ensures |r| >= m.valueStart - m.start && r[..m.valueStart - m.start] == s[m.start..m.valueStart]
    ensures (m.start < m.keyEnd && m.valueStart < m.end) ==>
              r[m.valueStart - m.start..] == DesensitizeValue(s[m.valueStart..m.end])
  {
    var key := s[m.start..m.keyEnd];
    var quotes1 := s[m.keyEnd..m.valueStart];
    var value := s[m.valueStart..m.end];
    if |value| > 0 && |key| > 0 then
      assert key + quotes1 == s[m.start..m.valueStart];
      key + quotes1 + DesensitizeValue(value)
    else
      assert s[m.start..m.end][..m.valueStart - m.start] == s[m.start..m.valueStart];
      s[m.start..m.end]
  }

  /** `re.sub` from position `i`: each leftmost match is replaced, scanning resumes after it. */
  function SubFrom(s: string, kw: string, i: nat): string
    requires i <= |s|
    decreases |s| - i, 1
  {
    if i == |s| then "" else SubWith(s, kw, i, MatchAt(s, kw, i))
  }

  /** The rest of `SubFrom` once `m`, the outcome of the matcher at `i`, is known. */
  function SubWith(s: string, kw: string, i: nat, m: Option<Match>): string
    requires i < |s| && (m.Some? ==> Ordered(s, m.value) && m.value.start == i)
    decreases |s| - i, 0
  {
    match m
    case Some(m) => HeaderReplacer(s, m) + SubFrom(s, kw, m.end)
    case None => [s[i]] + SubFrom(s, kw, i + 1)
  }

  /** One `re.sub` call of the loop in `desensitize_data`. */
  function Sub(message: string, kw: string): string {
    SubFrom(message, kw, 0)
  }

  /**
   * A match is rewritten as its key part and opening quote followed by the masked value:
   * the fallback of `header_replacer` that keeps the matched text is never taken.
   */
  lemma {:induction false} SubAtMatch(s: string, kw: string, i: nat, m: Match)
    requires i < |s| && MatchAt(s, kw, i) == Some(m)
    ensures SubFrom(s, kw, i)
         == s[i..m.valueStart] + DesensitizeValue(s[m.valueStart..m.end]) + SubFrom(s, kw, m.end)
  {
    assert s[m.start..m.keyEnd] + s[m.keyEnd..m.valueStart] == s[i..m.valueStart];
  }

  lemma SubSkip(s: string, kw: string, i: nat)
    requires i < |s| && MatchAt(s, kw, i).None?
    ensures SubFrom(s, kw, i) == [s[i]] + SubFrom(s, kw, i + 1)
  {
  }

  lemma ConsSlice(s: string, i: nat, j: nat, rest: string)
    requires i < j <= |s|
    ensures [s[i]] + (s[i + 1..j] + rest) == s[i..j] + rest
  {
    assert [s[i]] + s[i + 1..j] == s[i..j];
  }

  /** Text at positions where no match starts is copied unchanged. */
  lemma {:induction false} SubPassThrough(s: string, kw: string, i: nat, j: nat)
    requires i <= j <= |s|
    requires forall p :: i <= p < j ==> MatchAt(s, kw, p).None?
    ensures SubFrom(s, kw, i) == s[i..j] + SubFrom(s, kw, j)
    decreases j - i
  {
    if i < j {
      SubSkip(s, kw, i);
      SubPassThrough(s, kw, i + 1, j);
      ConsSlice(s, i, j, SubFrom(s, kw, j));
    }
  }

  /**
   * Text is copied unchanged up to any position `j` as long as the keyword does not occur,
   * ignoring case, anywhere from `i` to `j`: a match needs the keyword at its start or
   * just after a quote there.
   */
  lemma SubBeforeKeyword(s: string, kw: string, i: nat, j: nat)
    requires i <= j <= |s|
    requires forall p :: i <= p <= j ==> !KeyAt(s, kw, p)
    ensures SubFrom(s, kw, i) == s[i..j] + SubFrom(s, kw, j)
  {
    forall p | i <= p < j
      ensures MatchAt(s, kw, p).None?
    {
      assert !KeyAt(s, kw, p) && !KeyAt(s, kw, p + 1);
      if MatchAt(s, kw, p).Some? {
        MatchShape(s, kw, p);
      }
    }
    SubPassThrough(s, kw, i, j);
  }

  /** The keyword occurs somewhere in `s`, ignoring case. */
  ghost predicate Mentions(s: string, kw: string) {
    exists p :: 0 <= p <= |s| && KeyAt(s, kw, p)
  }

  /** A message that never mentions the keyword is left as it is. */
  lemma SubWithoutKeyword(s: string, kw: string)
    requires !Mentions(s, kw)
    ensures Sub(s, kw) == s
  {
    SubBeforeKeyword(s, kw, 0, |s|);
    assert s[0..|s|] == s;
  }

  /**
   * Where the keyword, an optional quote, `=` or `:`, an optional space and an optional
   * quote stand at `p`, all of them are copied and only the value that follows is masked;
   * substitution resumes after the value.
   */
  lemma KeyValueRewrite(s: string, kw: string, p: nat, i: nat, j: nat, keyEnd: nat, q: nat)
    requires p < |s|
    requires i == (if IsQuote(s[p]) then p + 1 else p)
    requires KeyAt(s, kw, i)
    requires j == (if i + |kw| < |s| && IsQuote(s[i + |kw|]) then i + |kw| + 1 else i + |kw|)
    requires j < |s| && IsSeparator(s[j])
    requires keyEnd == (if j + 1 < |s| && IsSpace(s[j + 1]) then j + 2 else j + 1)
    requires q == (if keyEnd < |s| && IsQuote(s[keyEnd]) then keyEnd + 1 else keyEnd)
    requires ValueEnd(s, q).Some?
    ensures var e := ValueEnd(s, q).value;
            SubFrom(s, kw, p) == s[p..q] + DesensitizeValue(s[q..e]) + SubFrom(s, kw, e)
  {
    KeyValueMatch(s, kw, p, i, j, keyEnd, q);
    SubAtMatch(s, kw, p, Match(p, keyEnd, q, ValueEnd(s, q).value));
  }

  /** With no delimiter left, the run of non-delimiters goes to the end of the message. */
  lemma {:induction false} RunToEnd(s: string, i: nat)
    requires i <= |s|
    requires forall k :: i <= k < |s| ==> !IsDelimiter(s[k])
    ensures RunEnd(s, i) == |s|
    decreases |s| - i
  {
    if i < |s| {
      RunToEnd(s, i + 1);
    }
  }

  /**
   * A value that closes the message: when no `;` or `,` follows position `q`
   * and something is left, group 3 runs to the end of the message.
   */
  lemma ValueToEnd(s: string, q: nat)
    requires q < |s|
    requires forall k :: q <= k < |s| ==> !IsDelimiter(s[k])
    ensures ValueEnd(s, q) == Some(|s|)
  {
    assert SkipDelimiters(s, q) == q;
    RunToEnd(s, q);
  }

  /** The cases of the test suite for `desensitize_value`. */
  lemma MaskExample()
    ensures DesensitizeValue("1234567890") == "123*****890"
    ensures DesensitizeValue("12") == "12" && DesensitizeValue("123456") == "123456"
  {
    var v := "1234567890";
    assert v[..3] == "123" && v[|v| - 3..] == "890";
  }

  /* ---------------------------------------------------------------------------------- */
  /* desensitize_data                                                                    */

  /** Applies `step` once per keyword, in list order, each time to the previous output. */
  function FoldKeywords(step: (string, string) -> string, message: string, keywords: seq<string>): string
    decreases |keywords|
  {
    if |keywords| == 0 then message
    else step(FoldKeywords(step, message, keywords[..|keywords| - 1]), keywords[|keywords| - 1])
  }

  /** Folding over a list of keywords is folding over its first part, then over the rest. */
  lemma {:induction false} FoldKeywordsAppend(step: (string, string) -> string, message: string, first: seq<string>, rest: seq<string>)
    ensures FoldKeywords(step, message, first + rest) == FoldKeywords(step, FoldKeywords(step, message, first), rest)
    decreases |rest|
  {
    if |rest| == 0 {
      assert first + rest == first;
    } else {
      var all := first + rest;
      assert all[..|all| - 1] == first + rest[..|rest| - 1];
      FoldKeywordsAppend(step, message, first, rest[..|rest| - 1]);
    }
  }

  /** What `desensitize_data` returns: one `re.sub` per keyword, in list order. */
  function DesensitizeAll(message: string, keywords: seq<string>): string {
    FoldKeywords(Sub, message, keywords)
  }

  /** The first keyword works on the message itself, the others on its output. */
  lemma DesensitizeAllFirst(message: string, kw: string, rest: seq<string>)
    ensures DesensitizeAll(message, [kw] + rest) == DesensitizeAll(Sub(message, kw), rest)
  {
    FoldKeywordsAppend(Sub, message, [kw], rest);
    assert [kw][..0] == [];
  }

  /** Redacting with two lists in turn is redacting with their concatenation. */
  lemma DesensitizeAllAppend(message: string, first: seq<string>, rest: seq<string>)
    ensures DesensitizeAll(message, first + rest) == DesensitizeAll(DesensitizeAll(message, first), rest)
  {
    FoldKeywordsAppend(Sub, message, first, rest);
  }

  /** A message that mentions none of the keywords is left as it is. */
  lemma {:induction false} DesensitizeAllWithoutKeywords(message: string, keywords: seq<string>)
    requires forall i :: 0 <= i < |keywords| ==> !Mentions(message, keywords[i])
    ensures DesensitizeAll(message, keywords) == message
    decreases |keywords|
  {
    if |keywords| > 0 {
      DesensitizeAllWithoutKeywords(message, keywords[..|keywords| - 1]);
      SubWithoutKeyword(message, keywords[|keywords| - 1]);
    }
  }

  /** `desensitize_data`: the loop over the keywords, reassigning the message each time. */
  method DesensitizeData(message: string, keywords: seq<string>) returns (r: string)
    requires forall i :: 0 <= i < |keywords| ==> IsPlainKeyword(keywords[i])
    ensures r == DesensitizeAll(message, keywords)
  {
    r := message;
    for i := 0 to |keywords|
      invariant r == DesensitizeAll(message, keywords[..i])
    {
      assert keywords[..i + 1][..i] == keywords[..i];
      r := Sub(r, keywords[i]);
    }
    assert keywords[..|keywords|] == keywords;
  }
}
