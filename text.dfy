/**
 * String operations that the Rust and the Python code rely on, written out with the
 * exact semantics of the standard library call they stand for: splitting on a
 * separator, trimming, whitespace tokens, line splitting, substring tests, integer
 * parsing and case folding.
 */
module Text {
  import opened Wrappers

  /** Rust's `char::is_whitespace`: the Unicode White_Space property. */
  predicate IsRustWhitespace(c: char)
  {
    ('\t' <= c <= '\r') || c == ' ' || c == '\U{0085}' || c == '\U{00A0}' || c == '\U{1680}'
    || ('\U{2000}' <= c <= '\U{200A}') || c == '\U{2028}' || c == '\U{2029}' || c == '\U{202F}'
    || c == '\U{205F}' || c == '\U{3000}'
  }

  /** Python's `str.isspace` on one character, which is also what `\s` matches in a `str` regex. */
  predicate IsPySpace(c: char)
  {
    ('\t' <= c <= '\r') || ('\U{001C}' <= c <= '\U{001F}') || c == ' ' || c == '\U{0085}'
    || c == '\U{00A0}' || c == '\U{1680}' || ('\U{2000}' <= c <= '\U{200A}') || c == '\U{2028}'
    || c == '\U{2029}' || c == '\U{202F}' || c == '\U{205F}' || c == '\U{3000}'
  }

  predicate IsAsciiDigit(c: char) { '0' <= c <= '9' }

  predicate AllAsciiDigits(s: string) { forall i :: 0 <= i < |s| ==> IsAsciiDigit(s[i]) }

  function DigitValue(c: char): (d: nat)
    requires IsAsciiDigit(c)
    ensures d <= 9
  {
    c as int - '0' as int
  }

  /** The value of a run of decimal digits, most significant first. */
  function DecimalValue(s: string): nat
    requires AllAsciiDigits(s)
  {
    if s == [] then 0 else 10 * DecimalValue(s[..|s| - 1]) + DigitValue(s[|s| - 1])
  }

  /** The decimal spelling of a natural number, no leading zeros. */
  function DecimalString(n: nat): (s: string)
    ensures s != [] && AllAsciiDigits(s)
  {
    if n < 10 then [('0' as int + n) as char] else DecimalString(n / 10) + [('0' as int + n % 10) as char]
  }

  lemma {:induction false} DecimalRoundTrip(n: nat)
    ensures DecimalValue(DecimalString(n)) == n
  {
    var s := DecimalString(n);
    if n >= 10 {
      DecimalRoundTrip(n / 10);
      assert s[..|s| - 1] == DecimalString(n / 10);
    }
  }

  /** `ch.to_ascii_lowercase()` in Rust, `lower()` restricted to ASCII. */
  function AsciiLower(c: char): (l: char)
    ensures 'A' <= c <= 'Z' ==> l as int == c as int + 32
    ensures !('A' <= c <= 'Z') ==> l == c
  {
    if 'A' <= c <= 'Z' then (c as int + 32) as char else c
  }

  /**
   * Which characters outside ASCII are uppercase. Unicode's case tables are not written
   * out here: each caller receives them as this parameter, and inside ASCII exactly
   * `A`..`Z` are uppercase.
   */
  type CaseTable = char -> bool

  /** Rust's `char::is_uppercase` and Python's `str.isupper` on one character. */
  predicate IsUppercase(c: char, nonAscii: CaseTable)
  {
    if c < '\U{0080}' then 'A' <= c <= 'Z' else nonAscii(c)
  }

  /** `str::eq_ignore_ascii_case` in Rust. */
  predicate EqIgnoreAsciiCase(a: string, b: string)
  {
    |a| == |b| && forall i :: 0 <= i < |a| ==> AsciiLower(a[i]) == AsciiLower(b[i])
  }

  /**
   * Rust's `str::to_lowercase`, as far as a comparison against ASCII words can tell:
   * ASCII letters fold, and the KELVIN SIGN (U+212A) becomes `k`, the only character
   * outside ASCII whose lowercase form is ASCII text. Every other character outside
   * ASCII lowercases to text that is still not ASCII, so it is kept as it is.
   */
  function RustLowerChar(c: char): char
  {
    if c == '\U{212A}' then 'k' else AsciiLower(c)
  }

  function RustLower(s: string): (r: string)
    ensures |r| == |s| && forall i :: 0 <= i < |s| ==> r[i] == RustLowerChar(s[i])
  {
    if s == [] then [] else [RustLowerChar(s[0])] + RustLower(s[1..])
  }

  /** Text with no uppercase letter and no KELVIN SIGN is its own lowercase form. */
  lemma RustLowerOfLowercase(s: string)
    requires forall i :: 0 <= i < |s| ==> !('A' <= s[i] <= 'Z') && s[i] != '\U{212A}'
    ensures RustLower(s) == s
  {
  }

  predicate StartsWith(s: string, prefix: string)
  {
    |prefix| <= |s| && s[..|prefix|] == prefix
  }

  /** `haystack.contains(needle)` (Rust) and `needle in haystack` (Python) on strings. */
  predicate Contains(haystack: string, needle: string)
    decreases |haystack|
  {
    StartsWith(haystack, needle) || (haystack != [] && Contains(haystack[1..], needle))
  }

  lemma {:induction false} ContainsAt(haystack: string, needle: string, i: nat)
    requires i + |needle| <= |haystack| && haystack[i..i + |needle|] == needle
    ensures Contains(haystack, needle)
    decreases i
  {
    if i > 0 {
      assert haystack[1..][i - 1..i - 1 + |needle|] == needle;
      ContainsAt(haystack[1..], needle, i - 1);
    }
  }

  /** `s.split(sep)` with a one-character separator: Rust's `str::split` and Python's `str.split`. */
  function Split(s: string, sep: char): (parts: seq<string>)
    ensures |parts| >= 1
    ensures forall i :: 0 <= i < |parts| ==> sep !in parts[i]
  {
    if s == [] then [[]]
    else
      var rest := Split(s[1..], sep);
      if s[0] == sep then [[]] + rest else [[s[0]] + rest[0]] + rest[1..]
  }

  function Join(parts: seq<string>, sep: char): string
    requires |parts| >= 1
  {
    if |parts| == 1 then parts[0] else parts[0] + [sep] + Join(parts[1..], sep)
  }

  /** Splitting loses nothing: joining the pieces with the separator gives the text back. */
  lemma {:induction false} JoinSplit(s: string, sep: char)
    ensures Join(Split(s, sep), sep) == s
  {
    if s != [] {
      var rest := Split(s[1..], sep);
      JoinSplit(s[1..], sep);
      if s[0] != sep {
        if |rest| == 1 {
        } else {
          assert Split(s, sep)[1..] == rest[1..];
        }
      }
    }
  }

  /** Joining pieces that hold no separator and splitting again gives the pieces back. */
  lemma {:induction false} SplitJoin(parts: seq<string>, sep: char)
    requires |parts| >= 1
    requires forall i :: 0 <= i < |parts| ==> sep !in parts[i]
    ensures Split(Join(parts, sep), sep) == parts
    decreases |parts|, |parts[0]|
  {
    if |parts| == 1 {
      SplitNoSep(parts[0], sep);
    } else if parts[0] == [] {
      SplitJoin(parts[1..], sep);
      assert Join(parts, sep) == [sep] + Join(parts[1..], sep);
      SplitAfterSep(Join(parts[1..], sep), sep);
      assert parts == [[]] + parts[1..];
    } else {
      var shorter := [parts[0][1..]] + parts[1..];
      DropFirstChar(parts, shorter, sep);
      SplitJoin(shorter, sep);
      RestoreFirstChar(parts, shorter, sep);
    }
  }

  /** `shorter` is `parts` with the first character of its first piece removed. */
  lemma DropFirstChar(parts: seq<string>, shorter: seq<string>, sep: char)
    requires |parts| >= 2 && parts[0] != [] && shorter == [parts[0][1..]] + parts[1..]
    requires forall i :: 0 <= i < |parts| ==> sep !in parts[i]
    ensures forall i :: 0 <= i < |shorter| ==> sep !in shorter[i]
    ensures Join(parts, sep) == [parts[0][0]] + Join(shorter, sep)
  {
    var p0 := parts[0];
    assert p0 == [p0[0]] + p0[1..];
    assert shorter[1..] == parts[1..];
    forall i | 0 <= i < |shorter| ensures sep !in shorter[i] {
      if i > 0 { assert shorter[i] == parts[i]; }
    }
  }

  lemma RestoreFirstChar(parts: seq<string>, shorter: seq<string>, sep: char)
    requires |parts| >= 2 && parts[0] != [] && shorter == [parts[0][1..]] + parts[1..]
    requires sep != parts[0][0]
    requires Join(parts, sep) == [parts[0][0]] + Join(shorter, sep)
    requires Split(Join(shorter, sep), sep) == shorter
    ensures Split(Join(parts, sep), sep) == parts
  {
    var p0 := parts[0];
    SplitAfterChar(p0[0], Join(shorter, sep), sep);
    assert p0 == [p0[0]] + p0[1..];
    assert parts == [[p0[0]] + shorter[0]] + shorter[1..];
  }

  lemma SplitAfterSep(s: string, sep: char)
    ensures Split([sep] + s, sep) == [[]] + Split(s, sep)
  {
    assert ([sep] + s)[1..] == s;
  }

  lemma SplitAfterChar(c: char, s: string, sep: char)
    requires c != sep
    ensures Split([c] + s, sep) == [[c] + Split(s, sep)[0]] + Split(s, sep)[1..]
  {
    assert ([c] + s)[1..] == s;
  }

  lemma {:induction false} SplitNoSep(s: string, sep: char)
    requires sep !in s
    ensures Split(s, sep) == [s]
  {
    if s != [] {
      assert sep !in s[1..] by {
        forall i | 0 <= i < |s| - 1 ensures s[1..][i] != sep { assert s[1..][i] == s[i + 1]; }
      }
      SplitNoSep(s[1..], sep);
      assert s == [s[0]] + s[1..];
    }
  }

  function TrimStart(s: string): (r: string)
    ensures |r| <= |s| && r == s[|s| - |r|..]
    ensures r != [] ==> !IsRustWhitespace(r[0])
  {
    if s != [] && IsRustWhitespace(s[0]) then TrimStart(s[1..]) else s
  }

  function TrimEnd(s: string): (r: string)
    ensures |r| <= |s| && r == s[..|r|]
    ensures r != [] ==> !IsRustWhitespace(r[|r| - 1])
  {
    if s != [] && IsRustWhitespace(s[|s| - 1]) then TrimEnd(s[..|s| - 1]) else s
  }

  /** Rust's `str::trim`: leading and trailing Unicode whitespace removed. */
  function Trim(s: string): (r: string)
    ensures r != [] ==> !IsRustWhitespace(r[0]) && !IsRustWhitespace(r[|r| - 1])
  {
    TrimEnd(TrimStart(s))
  }

  /** The longest prefix of `s` that holds no whitespace. */
  function TakeWord(s: string): (w: string)
    ensures |w| <= |s| && w == s[..|w|]
    ensures forall i :: 0 <= i < |w| ==> !IsRustWhitespace(w[i])
    ensures |w| < |s| ==> IsRustWhitespace(s[|w|])
  {
    if s == [] || IsRustWhitespace(s[0]) then [] else [s[0]] + TakeWord(s[1..])
  }

  /** Rust's `str::split_whitespace`: the non-empty runs of non-whitespace, in order. */
  function SplitWhitespace(s: string): (words: seq<string>)
    ensures forall i :: 0 <= i < |words| ==> words[i] != []
    decreases |s|
  {
    var t := TrimStart(s);
    if t == [] then [] else
      assert !IsRustWhitespace(t[0]);
      var w := TakeWord(t);
      assert w != [] && |t[|w|..]| < |s|;
      var rest := SplitWhitespace(t[|w|..]);
      NonEmptyCons(w, rest);
      [w] + rest
  }

  lemma NonEmptyCons(w: string, rest: seq<string>)
    requires w != [] && forall i :: 0 <= i < |rest| ==> rest[i] != []
    ensures forall i :: 0 <= i < |[w] + rest| ==> ([w] + rest)[i] != []
  {
  }

  function StripTrailingCr(line: string): string
  {
    if line != [] && line[|line| - 1] == '\r' then line[..|line| - 1] else line
  }

  /**
   * Rust's `str::lines`: lines end at `\n`; a `\r` just before it is dropped with it; a
   * final line ending is optional and adds no empty line.
   */
  function RustLines(s: string): seq<string>
    decreases |s|
  {
    if s == [] then []
    else if '\n' !in s then [s]
    else
      var i := IndexOf(s, '\n');
      [StripTrailingCr(s[..i])] + RustLines(s[i + 1..])
  }

  function IndexOf(s: string, c: char): (i: nat)
    requires c in s
    ensures i < |s| && s[i] == c && c !in s[..i]
  {
    if s[0] == c then 0 else 1 + IndexOf(s[1..], c)
  }

  /** The characters at which Python's `str.splitlines` ends a line. */
  predicate IsPyLineBoundary(c: char)
  {
    c == '\n' || c == '\r' || c == '\U{000B}' || c == '\U{000C}' || ('\U{001C}' <= c <= '\U{001E}')
    || c == '\U{0085}' || c == '\U{2028}' || c == '\U{2029}'
  }

  function FirstPyBoundary(s: string): (i: nat)
    ensures i <= |s|
    ensures forall j :: 0 <= j < i ==> !IsPyLineBoundary(s[j])
    ensures i < |s| ==> IsPyLineBoundary(s[i])
  {
    if s == [] || IsPyLineBoundary(s[0]) then 0 else 1 + FirstPyBoundary(s[1..])
  }

  /** Python's `str.splitlines()`: `\r\n` counts as one boundary; no empty line after a final one. */
  function PySplitLines(s: string): seq<string>
    decreases |s|
  {
    if s == [] then []
    else
      var i := FirstPyBoundary(s);
      if i == |s| then [s]
      else
        var next := if s[i] == '\r' && i + 1 < |s| && s[i + 1] == '\n' then i + 2 else i + 1;
        [s[..i]] + PySplitLines(s[next..])
  }

  const I32Min: int := -0x8000_0000
  const I32Max: int := 0x7FFF_FFFF

  /**
   * Rust's `s.parse::<i32>()`: an optional `+` or `-`, then at least one ASCII digit and
   * nothing else, and a value that fits in 32 bits.
   */
  function ParseI32(s: string): (r: Option<int>)
    ensures r.Some? ==> I32Min <= r.value <= I32Max
  {
    var negative := s != [] && s[0] == '-';
    var digits := if s != [] && (s[0] == '-' || s[0] == '+') then s[1..] else s;
    if digits == [] || !AllAsciiDigits(digits) then None
    else
      var v: int := if negative then 0 - (DecimalValue(digits) as int) else DecimalValue(digits);
      if I32Min <= v <= I32Max then Some(v) else None
  }

  lemma ParseI32OfDecimal(n: nat)
    requires n <= I32Max
    ensures ParseI32(DecimalString(n)) == Some(n)
  {
    DecimalRoundTrip(n);
  }
}
