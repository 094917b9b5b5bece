/**
 * Character classes and the few `str` operations of Python that the modelled code
 * relies on: `sep.join(parts)`, `s.split(c)` and `s.strip(...)`.
 */
module Text {

  predicate IsAsciiLetter(c: char) {
    'a' <= c <= 'z' || 'A' <= c <= 'Z'
  }

  predicate IsAsciiDigit(c: char) {
    '0' <= c <= '9'
  }

  predicate IsQuote(c: char) {
    c == '\'' || c == '"'
  }

  /** Python's `str.isspace`, which is also the `\s` class of a `str` regular expression. */
  predicate IsSpace(c: char) {
    || c == ' '
    || '\t' <= c <= '\r'
    || '\U{1C}' <= c <= '\U{1F}'
    || c == '\U{85}' || c == '\U{A0}' || c == '\U{1680}'
    || '\U{2000}' <= c <= '\U{200A}'
    || c == '\U{2028}' || c == '\U{2029}' || c == '\U{202F}' || c == '\U{205F}' || c == '\U{3000}'
  }

  /** ASCII lower-casing; every other character is left alone. */
  function Lower(c: char): (r: char)
    ensures IsAsciiLetter(c) ==> 'a' <= r <= 'z' && (r == c || r as int == c as int + 32)
    ensures !('A' <= c <= 'Z') ==> r == c
  {
    if 'A' <= c <= 'Z' then (c as int + 32) as char else c
  }

  predicate NoChar(s: string, c: char) {
    forall i :: 0 <= i < |s| ==> s[i] != c
  }

  /** Python's `sep.join(parts)`. */
  function Join(sep: string, parts: seq<string>): string {
    if |parts| == 0 then ""
    else if |parts| == 1 then parts[0]
    else parts[0] + sep + Join(sep, parts[1..])
  }

  /** Python's `s.split(c)` for a one-character separator: `"".split(c) == [""]`. */
  function Split(s: string, c: char): (r: seq<string>)
    ensures |r| >= 1
  {
    if |s| == 0 then [""]
    else
      var rest := Split(s[1..], c);
      if s[0] == c then [""] + rest else [[s[0]] + rest[0]] + rest[1..]
  }

  lemma {:induction false} SplitAfterPlainPrefix(a: string, t: string, c: char)
    requires NoChar(a, c)
    ensures Split(a + t, c) == [a + Split(t, c)[0]] + Split(t, c)[1..]
    decreases |a|
  {
    if |a| > 0 {
      assert (a + t)[1..] == a[1..] + t;
      SplitAfterPlainPrefix(a[1..], t, c);
      assert [a[0]] + (a[1..] + Split(t, c)[0]) == a + Split(t, c)[0];
    } else {
      assert a + t == t;
      var r := Split(t, c);
      assert a + r[0] == r[0];
      assert r == [r[0]] + r[1..];
    }
  }

  /** Splitting on `c` undoes joining with `c` when no part contains `c`. */
  lemma {:induction false} SplitJoin(parts: seq<string>, c: char)
    requires |parts| >= 1
    requires forall i :: 0 <= i < |parts| ==> NoChar(parts[i], c)
    ensures Split(Join([c], parts), c) == parts
    decreases |parts|
  {
    if |parts| == 1 {
      SplitAfterPlainPrefix(parts[0], "", c);
      assert parts[0] + "" == parts[0];
    } else {
      var rest := Join([c], parts[1..]);
      assert Join([c], parts) == parts[0] + ([c] + rest);
      SplitJoin(parts[1..], c);
      SplitAfterPlainPrefix(parts[0], [c] + rest, c);
      assert ([c] + rest)[1..] == rest;
      assert Split([c] + rest, c) == [""] + parts[1..];
      assert parts[0] + "" == parts[0];
      assert parts == [parts[0]] + parts[1..];
    }
  }

  /**
   * The lines of `Join(tail + [c] + head, parts)` when split at `c`: every part but the
   * last gets `tail` appended, every part but the first gets `head` prepended, and the
   * first one gets `lead` prepended.
   */
  function Decorate(parts: seq<string>, tail: string, head: string, lead: string): (r: seq<string>)
    ensures |r| == |parts|
  {
    if |parts| == 0 then []
    else if |parts| == 1 then [lead + parts[0]]
    else [lead + parts[0] + tail] + Decorate(parts[1..], tail, head, head)
  }

  lemma {:induction false} DecorateAt(parts: seq<string>, tail: string, head: string, lead: string, i: nat)
    requires i < |parts|
    ensures Decorate(parts, tail, head, lead)[i]
         == (if i == 0 then lead else head) + parts[i] + (if i < |parts| - 1 then tail else "")
    decreases |parts|
  {
    if i > 0 {
      DecorateAt(parts[1..], tail, head, head, i - 1);
    } else if |parts| == 1 {
      assert lead + parts[0] + "" == lead + parts[0];
    }
  }

  lemma {:induction false} JoinDecorate(parts: seq<string>, tail: string, c: char, head: string, lead: string)
    requires |parts| >= 1
    ensures lead + Join(tail + [c] + head, parts) == Join([c], Decorate(parts, tail, head, lead))
    decreases |parts|
  {
    if |parts| > 1 {
      var sep := tail + [c] + head;
      JoinDecorate(parts[1..], tail, c, head, head);
      var d := Decorate(parts[1..], tail, head, head);
      assert Decorate(parts, tail, head, lead) == [lead + parts[0] + tail] + d;
      assert ([lead + parts[0] + tail] + d)[1..] == d;
      calc {
        lead + Join(sep, parts);
        lead + (parts[0] + sep + Join(sep, parts[1..]));
        (lead + parts[0] + tail) + [c] + (head + Join(sep, parts[1..]));
        (lead + parts[0] + tail) + [c] + Join([c], d);
      }
    }
  }

  /** Python's `s.lstrip(chars)`: drops the longest prefix of characters satisfying `drop`. */
  function TrimLeft(s: string, drop: char -> bool): (r: string)
    ensures |r| <= |s| && r == s[|s| - |r|..]
    ensures forall k :: 0 <= k < |s| - |r| ==> drop(s[k])
    ensures |r| > 0 ==> !drop(r[0])
    decreases |s|
  {
    if |s| > 0 && drop(s[0]) then TrimLeft(s[1..], drop) else s
  }

  /** Python's `s.rstrip(chars)`: drops the longest suffix of characters satisfying `drop`. */
  function TrimRight(s: string, drop: char -> bool): (r: string)
    ensures |r| <= |s| && r == s[..|r|]
    ensures forall k :: |r| <= k < |s| ==> drop(s[k])
    ensures |r| > 0 ==> !drop(r[|r| - 1])
    decreases |s|
  {
    if |s| > 0 && drop(s[|s| - 1]) then TrimRight(s[..|s| - 1], drop) else s
  }

  /**
   * Python's `s.strip(chars)`: the result is the slice `s[i..j]` left once every leading
   * and trailing character satisfying `drop` is gone.
   */
  function Strip(s: string, drop: char -> bool): (r: string)
    ensures exists i, j ::
              && 0 <= i <= j <= |s| && r == s[i..j]
              && (forall k :: 0 <= k < i ==> drop(s[k]))
              && (forall k :: j <= k < |s| ==> drop(s[k]))
    ensures |r| > 0 ==> !drop(r[0]) && !drop(r[|r| - 1])
  {
    var l := TrimLeft(s, drop);
    var r := TrimRight(l, drop);
    var i := |s| - |l|;
    assert r == s[i..i + |r|];
    r
  }

  /** Stripping leaves a string alone when neither end can be dropped. */
  lemma StripUnchanged(s: string, drop: char -> bool)
    requires |s| > 0 && !drop(s[0]) && !drop(s[|s| - 1])
    ensures Strip(s, drop) == s
  {
  }
}
