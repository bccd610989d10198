/**
 * The two regular expressions the Python code searches with, `dimensions:\s+(\d+)x(\d+)`
 * and `id=(\d+)`, written as matchers with Python's `re.search` semantics: the match
 * that starts leftmost wins. `\d` is read as the ASCII digits 0-9 only. In both patterns a repetition is followed by a character
 * it cannot match, so the greedy repetitions never give anything back and each match
 * is the longest run at its position.
 */
module PyText {
  import opened Wrappers
  import opened Text

  /** The length of the run of ASCII digits that starts at `i`. */
  function DigitsFrom(s: string, i: nat): (n: nat)
    requires i <= |s|
    decreases |s| - i
    ensures i + n <= |s|
    ensures forall j :: i <= j < i + n ==> IsAsciiDigit(s[j])
    ensures i + n < |s| ==> !IsAsciiDigit(s[i + n])
  {
    if i == |s| || !IsAsciiDigit(s[i]) then 0 else 1 + DigitsFrom(s, i + 1)
  }

  /** The length of the run of whitespace (`\s`) that starts at `i`. */
  function SpacesFrom(s: string, i: nat): (n: nat)
    requires i <= |s|
    decreases |s| - i
    ensures i + n <= |s|
    ensures forall j :: i <= j < i + n ==> IsPySpace(s[j])
    ensures i + n < |s| ==> !IsPySpace(s[i + n])
  {
    if i == |s| || !IsPySpace(s[i]) then 0 else 1 + SpacesFrom(s, i + 1)
  }

  /** The value of the digits `s[i..i + n]`. */
  function NumberAt(s: string, i: nat, n: nat): nat
    requires i + n <= |s| && forall j :: i <= j < i + n ==> IsAsciiDigit(s[j])
  {
    DecimalValue(s[i..i + n])
  }

  predicate LiteralAt(s: string, p: nat, literal: string)
  {
    p + |literal| <= |s| && s[p..p + |literal|] == literal
  }

  datatype Pattern =
    | /** `dimensions:\s+(\d+)x(\d+)` */ Dimensions
    | /** `id=(\d+)` */ DeviceId

  /** `(\d+)` at `i`: the value of the longest run of digits there, which must not be empty. */
  function NumberFrom(s: string, i: nat): (v: Option<nat>)
    requires i <= |s|
  {
    var n := DigitsFrom(s, i);
    if n == 0 then None else Some(NumberAt(s, i, n))
  }

  /** `(\d+)x(\d+)` at `i`. */
  function SizeFrom(s: string, i: nat): Option<seq<nat>>
    requires i <= |s|
  {
    var n := DigitsFrom(s, i);
    if n == 0 || i + n == |s| || s[i + n] != 'x' then None
    else
      var height := NumberFrom(s, i + n + 1);
      if height.None? then None else Some([NumberAt(s, i, n), height.value])
  }

  /** `\s+(\d+)x(\d+)` at `i`. */
  function SpacedSizeFrom(s: string, i: nat): Option<seq<nat>>
    requires i <= |s|
  {
    var spaces := SpacesFrom(s, i);
    if spaces == 0 then None else SizeFrom(s, i + spaces)
  }

  /** The groups of the match of `pattern` that starts at `p`, if one does. */
  function MatchAt(s: string, p: nat, pattern: Pattern): (groups: Option<seq<nat>>)
    requires p <= |s|
  {
    match pattern
    case DeviceId =>
      if !LiteralAt(s, p, "id=") then None
      else
        var id := NumberFrom(s, p + 3);
        if id.None? then None else Some([id.value])
    case Dimensions =>
      if !LiteralAt(s, p, "dimensions:") then None else SpacedSizeFrom(s, p + 11)
  }

  /** How many groups the pattern captures. */
  function Arity(pattern: Pattern): nat
  {
    if pattern.Dimensions? then 2 else 1
  }

  /** The first position from `p` on where `pattern` matches, or `|s| + 1`. */
  function FirstMatchFrom(s: string, p: nat, pattern: Pattern): (q: nat)
    requires p <= |s| + 1
    decreases |s| + 1 - p
    ensures p <= q <= |s| + 1
    ensures forall j :: p <= j < q ==> MatchAt(s, j, pattern).None?
    ensures q <= |s| ==> MatchAt(s, q, pattern).Some?
  {
    if p == |s| + 1 then p
    else if MatchAt(s, p, pattern).Some? then p
    else FirstMatchFrom(s, p + 1, pattern)
  }

  /** `re.search(pattern, s)`: the groups of the leftmost match. */
  function Search(s: string, pattern: Pattern): (groups: Option<seq<nat>>)
    ensures groups.None? <==> forall j :: 0 <= j <= |s| ==> MatchAt(s, j, pattern).None?
    ensures groups.Some? ==> exists j :: 0 <= j <= |s| && MatchAt(s, j, pattern) == groups
    ensures groups.Some? ==> |groups.value| == Arity(pattern)
  {
    var q := FirstMatchFrom(s, 0, pattern);
    if q <= |s| then MatchAt(s, q, pattern) else None
  }

  /** A match at `q` with none before it is the match the search reports. */
  lemma SearchAt(s: string, q: nat, pattern: Pattern)
    requires q <= |s| && MatchAt(s, q, pattern).Some?
    requires forall j :: 0 <= j < q ==> MatchAt(s, j, pattern).None?
    ensures Search(s, pattern) == MatchAt(s, q, pattern)
  {
    FirstMatchIs(s, 0, q, pattern);
  }

  lemma {:induction false} FirstMatchIs(s: string, p: nat, q: nat, pattern: Pattern)
    requires p <= q <= |s| && MatchAt(s, q, pattern).Some?
    requires forall j :: p <= j < q ==> MatchAt(s, j, pattern).None?
    ensures FirstMatchFrom(s, p, pattern) == q
    decreases q - p
  {
    if p < q {
      FirstMatchIs(s, p + 1, q, pattern);
    }
  }

  /** A text that starts with `pre` and then `tail` agrees with `pre + tail` on every slice inside it. */
  lemma HeadOfText(pre: string, tail: string, s: string, j: nat, n: nat)
    requires |pre| <= |s| && s[..|pre|] == pre && StartsWith(s[|pre|..], tail)
    requires j + n <= |pre| + |tail|
    ensures (pre + tail)[j..j + n] == s[j..j + n]
  {
    assert s[..|pre| + |tail|] == s[..|pre|] + s[|pre|..][..|tail|];
    assert (pre + tail)[j..j + n] == s[..|pre| + |tail|][j..j + n];
  }

  /** No match of `literal` starts inside `pre`, even one running on into the text after it. */
  lemma NoLiteralBefore(pre: string, literal: string, s: string, j: nat)
    requires |literal| > 0 && |pre| <= |s| && s[..|pre|] == pre
    requires StartsWith(s[|pre|..], literal[..|literal| - 1])
    requires !Contains(pre + literal[..|literal| - 1], literal)
    requires j < |pre|
    ensures !LiteralAt(s, j, literal)
  {
    var head := pre + literal[..|literal| - 1];
    if LiteralAt(s, j, literal) {
      HeadOfText(pre, literal[..|literal| - 1], s, j, |literal|);
      ContainsAt(head, literal, j);
    }
  }

  /**
   * A dimensions field as `xdpyinfo` prints it is read back as the width and height it
   * was printed from, whatever whitespace follows the colon.
   */
  lemma DimensionsOfLine(pre: string, width: nat, height: nat, gap: string, rest: string)
    requires gap != [] && forall j :: 0 <= j < |gap| ==> IsPySpace(gap[j])
    requires rest == [] || !IsAsciiDigit(rest[0])
    ensures var line := pre + "dimensions:" + gap + DecimalString(width) + "x" + DecimalString(height) + rest;
      MatchAt(line, |pre|, Dimensions) == Some([width, height])
  {
    DimensionsOfDigits(pre, gap, DecimalString(width), DecimalString(height), rest);
    DecimalRoundTrip(width);
    DecimalRoundTrip(height);
  }

  lemma DimensionsOfDigits(pre: string, gap: string, w: string, h: string, rest: string)
    requires gap != [] && forall j :: 0 <= j < |gap| ==> IsPySpace(gap[j])
    requires w != [] && AllAsciiDigits(w) && h != [] && AllAsciiDigits(h)
    requires rest == [] || !IsAsciiDigit(rest[0])
    ensures MatchAt(pre + "dimensions:" + gap + w + "x" + h + rest, |pre|, Dimensions) == Some([DecimalValue(w), DecimalValue(h)])
  {
    var p := |pre|;
    var head := pre + "dimensions:" + gap;
    assert head[p..p + 11] == "dimensions:";
    forall j | p + 11 <= j < |head|
      ensures IsPySpace(head[j])
    {
      assert head[j] == gap[j - p - 11];
    }
    assert pre + "dimensions:" + gap + w + "x" + h + rest == head + w + ("x" + h + rest);
    DimensionsOfParts(p, head, w, h, rest);
  }

  /** The same match, with the text before the digits kept as one piece. */
  lemma DimensionsOfParts(p: nat, head: string, w: string, h: string, rest: string)
    requires |head| > p + 11 && head[p..p + 11] == "dimensions:"
    requires forall j :: p + 11 <= j < |head| ==> IsPySpace(head[j])
    requires w != [] && AllAsciiDigits(w) && h != [] && AllAsciiDigits(h)
    requires rest == [] || !IsAsciiDigit(rest[0])
    ensures MatchAt(head + w + ("x" + h + rest), p, Dimensions) == Some([DecimalValue(w), DecimalValue(h)])
  {
    var tail := "x" + h + rest;
    var line := head + w + tail;
    DimensionsOfPieces(p, head, w, tail);
    assert line[|head| + |w|..] == tail;
    TailOfDimensions(line, |head| + |w|, h, rest);
    DimensionsCompose(line, p, |head|, w, h);
  }

  lemma DimensionsCompose(line: string, p: nat, n: nat, w: string, h: string)
    requires n > p + 11 && w != [] && h != [] && AllAsciiDigits(w) && AllAsciiDigits(h)
    requires LiteralAt(line, p, "dimensions:") && SpacesFrom(line, p + 11) == n - p - 11
    requires DigitsFrom(line, n) == |w| && line[n..n + |w|] == w
    requires n + |w| < |line| && line[n + |w|] == 'x'
    requires DigitsFrom(line, n + |w| + 1) == |h| && line[n + |w| + 1..n + |w| + 1 + |h|] == h
    ensures MatchAt(line, p, Dimensions) == Some([DecimalValue(w), DecimalValue(h)])
  {
    DimensionsResult(line, n, w, h);
    MatchDimensions(line, p, n - p - 11, [DecimalValue(w), DecimalValue(h)]);
  }

  /** The size, from the runs of its two numbers only. */
  lemma DimensionsResult(line: string, i: nat, w: string, h: string)
    requires w != [] && h != [] && AllAsciiDigits(w) && AllAsciiDigits(h)
    requires i + |w| < |line| && DigitsFrom(line, i) == |w| && line[i..i + |w|] == w && line[i + |w|] == 'x'
    requires DigitsFrom(line, i + |w| + 1) == |h| && line[i + |w| + 1..i + |w| + 1 + |h|] == h
    ensures SizeFrom(line, i) == Some([DecimalValue(w), DecimalValue(h)])
  {
    var k := i + |w|;
    NumberOf(line, k + 1, h);
    SizeResult(line, i, k, w, DecimalValue(h));
  }

  lemma MatchDimensions(line: string, p: nat, spaces: nat, groups: seq<nat>)
    requires LiteralAt(line, p, "dimensions:") && spaces > 0 && SpacesFrom(line, p + 11) == spaces
    requires SizeFrom(line, p + 11 + spaces) == Some(groups)
    ensures MatchAt(line, p, Dimensions) == Some(groups)
  {
  }

  lemma NumberOf(line: string, i: nat, d: string)
    requires d != [] && i + |d| <= |line| && DigitsFrom(line, i) == |d| && line[i..i + |d|] == d
    ensures NumberFrom(line, i) == Some(DecimalValue(d))
  {
  }

  lemma SizeResult(line: string, i: nat, k: nat, w: string, height: nat)
    requires w != [] && k == i + |w| && k < |line| && line[k] == 'x'
    requires DigitsFrom(line, i) == |w| && line[i..k] == w
    requires NumberFrom(line, k + 1) == Some(height)
    ensures SizeFrom(line, i) == Some([DecimalValue(w), height])
  {
  }

  /** The key and its whitespace, then the width's digits: the match reaches the `x`. */
  lemma DimensionsOfPieces(p: nat, head: string, w: string, tail: string)
    requires |head| > p + 11 && head[p..p + 11] == "dimensions:"
    requires forall j :: p + 11 <= j < |head| ==> IsPySpace(head[j])
    requires w != [] && AllAsciiDigits(w)
    requires tail != [] && !IsAsciiDigit(tail[0])
    ensures var line := head + w + tail;
      && LiteralAt(line, p, "dimensions:")
      && SpacesFrom(line, p + 11) == |head| - p - 11
      && DigitsFrom(line, |head|) == |w|
      && line[|head|..|head| + |w|] == w
  {
    var line := head + w + tail;
    assert line[p..p + 11] == head[p..p + 11];
    forall j | p + 11 <= j < |head|
      ensures IsPySpace(line[j])
    {
      assert line[j] == head[j];
    }
    assert line[|head|] == w[0];
    SpacesRun(line, p + 11, |head| - p - 11);
    forall j | |head| <= j < |head| + |w|
      ensures IsAsciiDigit(line[j])
    {
      assert line[j] == w[j - |head|];
    }
    assert line[|head| + |w|] == tail[0];
    DigitsRun(line, |head|, |w|);
    assert line[|head|..|head| + |w|] == w;
  }

  lemma TailOfDimensions(line: string, k: nat, h: string, rest: string)
    requires k <= |line| && line[k..] == "x" + h + rest
    requires h != [] && AllAsciiDigits(h)
    requires rest == [] || !IsAsciiDigit(rest[0])
    ensures k < |line| && line[k] == 'x'
    ensures DigitsFrom(line, k + 1) == |h| && line[k + 1..k + 1 + |h|] == h
  {
    assert line[k] == line[k..][0];
    forall j | k + 1 <= j < k + 1 + |h|
      ensures line[j] == h[j - k - 1]
    {
      assert line[j] == line[k..][j - k];
    }
    if k + 1 + |h| < |line| {
      assert line[k + 1 + |h|] == line[k..][1 + |h|] == rest[0];
    }
    DigitsRun(line, k + 1, |h|);
  }

  /** An `id=` word followed by the decimal spelling of `n` and no further digit. */
  lemma DeviceIdOfWord(pre: string, n: nat, rest: string)
    requires rest == [] || !IsAsciiDigit(rest[0])
    ensures MatchAt(pre + "id=" + DecimalString(n) + rest, |pre|, DeviceId) == Some([n])
  {
    var p := |pre|;
    var d := DecimalString(n);
    var line := pre + "id=" + d + rest;
    assert line[p..p + 3] == "id=";
    forall j | p + 3 <= j < p + 3 + |d|
      ensures IsAsciiDigit(line[j])
    {
      assert line[j] == d[j - p - 3];
    }
    if p + 3 + |d| < |line| {
      assert line[p + 3 + |d|] == rest[0];
    }
    DigitsRun(line, p + 3, |d|);
    assert line[p + 3..p + 3 + |d|] == d;
    DecimalRoundTrip(n);
  }

  /**
   * After text in which no `id=` starts, the first `id=<n>` gives `n`: the leftmost match
   * wins and reads the whole run of digits.
   */
  lemma DeviceIdAfter(pre: string, n: nat, rest: string)
    requires !Contains(pre + "id", "id=")
    requires rest == [] || !IsAsciiDigit(rest[0])
    ensures Search(pre + "id=" + DecimalString(n) + rest, DeviceId) == Some([n])
  {
    var s := pre + "id=" + DecimalString(n) + rest;
    assert s[..|pre|] == pre;
    assert "id="[..2] == "id";
    assert StartsWith(s[|pre|..], "id="[..2]);
    forall j | 0 <= j < |pre|
      ensures MatchAt(s, j, DeviceId).None?
    {
      NoLiteralBefore(pre, "id=", s, j);
    }
    DeviceIdOfWord(pre, n, rest);
    SearchAt(s, |pre|, DeviceId);
  }

  /** After text in which no `dimensions:` starts, the first dimensions field gives the size. */
  lemma DimensionsAfter(pre: string, width: nat, height: nat, gap: string, rest: string)
    requires !Contains(pre + "dimensions", "dimensions:")
    requires gap != [] && forall j :: 0 <= j < |gap| ==> IsPySpace(gap[j])
    requires rest == [] || !IsAsciiDigit(rest[0])
    ensures Search(pre + "dimensions:" + gap + DecimalString(width) + "x" + DecimalString(height) + rest, Dimensions)
      == Some([width, height])
  {
    var s := pre + "dimensions:" + gap + DecimalString(width) + "x" + DecimalString(height) + rest;
    assert s[..|pre|] == pre;
    assert "dimensions:"[..10] == "dimensions";
    assert StartsWith(s[|pre|..], "dimensions:"[..10]);
    forall j | 0 <= j < |pre|
      ensures MatchAt(s, j, Dimensions).None?
    {
      NoLiteralBefore(pre, "dimensions:", s, j);
    }
    DimensionsOfLine(pre, width, height, gap, rest);
    SearchAt(s, |pre|, Dimensions);
  }

  /** The literal each pattern starts with. */
  function Keyword(pattern: Pattern): string
  {
    if pattern.Dimensions? then "dimensions:" else "id="
  }

  /** Text that does not contain a pattern's literal has no match of it. */
  lemma NoMatchWithoutKeyword(s: string, pattern: Pattern)
    requires !Contains(s, Keyword(pattern))
    ensures Search(s, pattern) == None
  {
    forall j | 0 <= j <= |s|
      ensures MatchAt(s, j, pattern).None?
    {
      NoMatchAt(s, j, pattern);
    }
  }

  lemma NoMatchAt(s: string, j: nat, pattern: Pattern)
    requires j <= |s| && !Contains(s, Keyword(pattern))
    ensures MatchAt(s, j, pattern).None?
  {
    MatchNeedsKeyword(s, j, pattern);
    if LiteralAt(s, j, Keyword(pattern)) {
      ContainsAt(s, Keyword(pattern), j);
    }
  }

  lemma MatchNeedsKeyword(s: string, j: nat, pattern: Pattern)
    requires j <= |s|
    ensures MatchAt(s, j, pattern).Some? ==> LiteralAt(s, j, Keyword(pattern))
  {
  }

  lemma {:induction false} DigitsRun(s: string, i: nat, n: nat)
    requires i + n <= |s|
    requires forall j :: i <= j < i + n ==> IsAsciiDigit(s[j])
    requires i + n == |s| || !IsAsciiDigit(s[i + n])
    ensures DigitsFrom(s, i) == n
    decreases n
  {
    if n > 0 {
      DigitsRun(s, i + 1, n - 1);
    }
  }

  lemma {:induction false} SpacesRun(s: string, i: nat, n: nat)
    requires i + n <= |s|
    requires forall j :: i <= j < i + n ==> IsPySpace(s[j])
    requires i + n == |s| || !IsPySpace(s[i + n])
    ensures SpacesFrom(s, i) == n
    decreases n
  {
    if n > 0 {
      SpacesRun(s, i + 1, n - 1);
    }
  }
}
