/**
 * The string operations of the Java and JavaScript standard libraries that the
 * bot relies on, over `string == seq<char>` (one `char` per code point).
 */
module Text {

  /** Java `startsWith` / JavaScript `startsWith`. */
  predicate StartsWith(s: string, prefix: string)
  {
    |prefix| <= |s| && s[..|prefix|] == prefix
  }

  /** Java `endsWith` / JavaScript `endsWith`. */
  predicate EndsWith(s: string, suffix: string)
  {
    |suffix| <= |s| && s[|s| - |suffix|..] == suffix
  }

  /** `sub` occurs in `s` starting at index `i`. */
  predicate OccursAt(s: string, sub: string, i: int)
  {
    0 <= i && i + |sub| <= |s| && s[i..i + |sub|] == sub
  }

  /** Java `contains` / JavaScript `includes`. */
  predicate Contains(s: string, sub: string)
  {
    exists i | 0 <= i <= |s| - |sub| :: OccursAt(s, sub, i)
  }

  lemma ContainsWitness(s: string, sub: string, i: int)
    requires OccursAt(s, sub, i)
    ensures Contains(s, sub)
  {
  }

  /** Java / JavaScript `indexOf(c)`: the first index holding `c`, or -1. */
  function IndexOfChar(s: string, c: char): (r: int)
    ensures -1 <= r < |s|
    ensures r >= 0 ==> s[r] == c && forall k | 0 <= k < r :: s[k] != c
    ensures r == -1 ==> forall k | 0 <= k < |s| :: s[k] != c
  {
    if |s| == 0 then -1
    else if s[0] == c then 0
    else
      var k := IndexOfChar(s[1..], c);
      if k < 0 then -1 else k + 1
  }

  /**
   * Java `s.lastIndexOf(c, from)`: the largest index `k <= from` holding `c`,
   * or -1; a `from` beyond the end searches the whole string.
   */
  function LastIndexOfFrom(s: string, c: char, from: int): (r: int)
    ensures -1 <= r < |s| && (r == -1 || r <= from)
    ensures r >= 0 ==> s[r] == c
    ensures forall k | r < k < |s| && k <= from :: s[k] != c
    decreases if from < |s| then (if from < 0 then 0 else from + 1) else |s| + 1
  {
    if from >= |s| then LastIndexOfFrom(s, c, |s| - 1)
    else if from < 0 then -1
    else if s[from] == c then from
    else LastIndexOfFrom(s, c, from - 1)
  }

  /** JavaScript `s.lastIndexOf(c)`: the last index holding `c`, or -1. */
  function LastIndexOfChar(s: string, c: char): (r: int)
    ensures -1 <= r < |s|
    ensures r >= 0 ==> s[r] == c
    ensures forall k | r < k < |s| :: s[k] != c
  {
    LastIndexOfFrom(s, c, |s| - 1)
  }

  /** The characters Java's `String.trim` removes: every code point up to U+0020. */
  predicate IsJavaSpace(c: char)
  {
    c <= ' '
  }

  /** Java regular expression `\s`: `[ \t\n\x0B\f\r]`. */
  predicate IsRegexSpace(c: char)
  {
    c == ' ' || c == '\t' || c == '\n' || c == '\U{B}' || c == '\U{C}' || c == '\r'
  }

  /**
   * The characters JavaScript's `String.prototype.trim` removes: the WhiteSpace
   * and LineTerminator productions of ECMAScript (Zs written out).
   */
  predicate IsJsSpace(c: char)
  {
    c == '\t' || c == '\n' || c == '\U{B}' || c == '\U{C}' || c == '\r' || c == ' '
    || c == '\U{A0}' || c == '\U{1680}' || ('\U{2000}' <= c <= '\U{200A}')
    || c == '\U{2028}' || c == '\U{2029}' || c == '\U{202F}' || c == '\U{205F}'
    || c == '\U{3000}' || c == '\U{FEFF}'
  }

  /** Drops the leading characters satisfying `isSpace`. */
  function TrimStart(s: string, isSpace: char -> bool): (r: string)
    ensures |r| <= |s| && r == s[|s| - |r|..]
    ensures forall k | 0 <= k < |s| - |r| :: isSpace(s[k])
    ensures r != [] ==> !isSpace(r[0])
  {
    if |s| > 0 && isSpace(s[0]) then TrimStart(s[1..], isSpace) else s
  }

  /** Drops the trailing characters satisfying `isSpace`. */
  function TrimEnd(s: string, isSpace: char -> bool): (r: string)
    ensures |r| <= |s| && r == s[..|r|]
    ensures forall k | |r| <= k < |s| :: isSpace(s[k])
    ensures r != [] ==> !isSpace(r[|r| - 1])
  {
    if |s| > 0 && isSpace(s[|s| - 1]) then TrimEnd(s[..|s| - 1], isSpace) else s
  }

  /**
   * Removes the characters satisfying `isSpace` from both ends: what is left is
   * a contiguous slice of `s`, and it is empty exactly when every character is
   * a space.
   */
  function Trim(s: string, isSpace: char -> bool): (r: string)
    ensures Contains(s, r)
    ensures r != [] ==> !isSpace(r[0]) && !isSpace(r[|r| - 1])
    ensures r == [] <==> forall k | 0 <= k < |s| :: isSpace(s[k])
  {
    TrimInside(s, isSpace);
    TrimEnds(s, isSpace);
    TrimEmpty(s, isSpace);
    TrimEnd(TrimStart(s, isSpace), isSpace)
  }

  /** What `Trim` keeps is the slice of `s` where the leading spaces end. */
  lemma TrimInside(s: string, isSpace: char -> bool)
    ensures Contains(s, TrimEnd(TrimStart(s, isSpace), isSpace))
  {
    var t := TrimStart(s, isSpace);
    var r := TrimEnd(t, isSpace);
    assert r == s[|s| - |t|..][..|r|];
    ContainsWitness(s, r, |s| - |t|);
  }

  /** Neither end of what `Trim` keeps is a space. */
  lemma TrimEnds(s: string, isSpace: char -> bool)
    ensures var r := TrimEnd(TrimStart(s, isSpace), isSpace);
      r != [] ==> !isSpace(r[0]) && !isSpace(r[|r| - 1])
  {
    var t := TrimStart(s, isSpace);
    var r := TrimEnd(t, isSpace);
    assert r != [] ==> r[0] == t[0];
  }

  /** `Trim` leaves nothing exactly when `s` is all spaces. */
  lemma TrimEmpty(s: string, isSpace: char -> bool)
    ensures TrimEnd(TrimStart(s, isSpace), isSpace) == [] <==> forall k | 0 <= k < |s| :: isSpace(s[k])
  {
    var t := TrimStart(s, isSpace);
    var r := TrimEnd(t, isSpace);
    assert t != [] ==> r != [] by {
      if t != [] {
        assert !isSpace(t[0]);
      }
    }
    assert t != [] ==> !isSpace(s[|s| - |t|]) by {
      if t != [] {
        assert t[0] == s[|s| - |t|];
      }
    }
  }

  /** Java `String.trim`. */
  function JavaTrim(s: string): string
  {
    Trim(s, IsJavaSpace)
  }

  /** JavaScript `String.prototype.trim`. */
  function JsTrim(s: string): string
  {
    Trim(s, IsJsSpace)
  }

  /** Java `s.trim().isEmpty()`. */
  predicate IsBlank(s: string)
  {
    forall k | 0 <= k < |s| :: IsJavaSpace(s[k])
  }

  /** JavaScript `s.trim().length === 0`. */
  predicate IsJsBlank(s: string)
  {
    forall k | 0 <= k < |s| :: IsJsSpace(s[k])
  }

  lemma JavaTrimEmptyIffBlank(s: string)
    ensures JavaTrim(s) == [] <==> IsBlank(s)
  {
  }

  lemma JsTrimEmptyIffBlank(s: string)
    ensures JsTrim(s) == [] <==> IsJsBlank(s)
  {
  }

  /**
   * Lower case of one character for the Latin and Cyrillic letters the bot
   * deals with (A-Z, U+0410-U+042F and U+0400-U+040F); other characters are
   * unchanged.
   */
  function LowerChar(c: char): char
  {
    if 'A' <= c <= 'Z' then (c as int + 32) as char
    else if '\U{410}' <= c <= '\U{42F}' then (c as int + 32) as char
    else if '\U{400}' <= c <= '\U{40F}' then (c as int + 80) as char
    else c
  }

  /** Upper case, the inverse mapping of `LowerChar` on the same letters. */
  function UpperChar(c: char): char
  {
    if 'a' <= c <= 'z' then (c as int - 32) as char
    else if '\U{430}' <= c <= '\U{44F}' then (c as int - 32) as char
    else if '\U{450}' <= c <= '\U{45F}' then (c as int - 80) as char
    else c
  }

  /** Java `toLowerCase` / JavaScript `toLowerCase`. */
  function ToLower(s: string): (r: string)
    ensures |r| == |s| && forall k | 0 <= k < |s| :: r[k] == LowerChar(s[k])
  {
    seq(|s|, k requires 0 <= k < |s| => LowerChar(s[k]))
  }

  /** Java `toUpperCase` / JavaScript `toUpperCase`. */
  function ToUpper(s: string): (r: string)
    ensures |r| == |s| && forall k | 0 <= k < |s| :: r[k] == UpperChar(s[k])
  {
    seq(|s|, k requires 0 <= k < |s| => UpperChar(s[k]))
  }

  /** Java `equalsIgnoreCase`. */
  predicate EqualsIgnoreCase(a: string, b: string)
  {
    |a| == |b| && forall k | 0 <= k < |a| :: LowerChar(a[k]) == LowerChar(b[k])
  }

  /** Lower-casing after upper-casing is lower-casing. */
  lemma LowerOfUpper(s: string)
    ensures ToLower(ToUpper(s)) == ToLower(s)
    ensures EqualsIgnoreCase(ToUpper(s), s)
  {
    assert forall k | 0 <= k < |s| :: LowerChar(UpperChar(s[k])) == LowerChar(s[k]);
  }

  /** Whitespace in front of a text that starts with a non-space is all `TrimStart` removes. */
  lemma {:induction false} TrimStartPadded(pad: string, x: string, isSpace: char -> bool)
    requires forall k | 0 <= k < |pad| :: isSpace(pad[k])
    requires x != [] ==> !isSpace(x[0])
    ensures TrimStart(pad + x, isSpace) == x
  {
    if pad != [] {
      assert (pad + x)[1..] == pad[1..] + x;
      TrimStartPadded(pad[1..], x, isSpace);
    } else {
      assert pad + x == x;
    }
  }

  /** Whitespace after a text that ends with a non-space is all `TrimEnd` removes. */
  lemma {:induction false} TrimEndPadded(x: string, pad: string, isSpace: char -> bool)
    requires forall k | 0 <= k < |pad| :: isSpace(pad[k])
    requires x != [] ==> !isSpace(x[|x| - 1])
    ensures TrimEnd(x + pad, isSpace) == x
  {
    if pad != [] {
      assert (x + pad)[..|x + pad| - 1] == x + pad[..|pad| - 1];
      TrimEndPadded(x, pad[..|pad| - 1], isSpace);
    } else {
      assert x + pad == x;
    }
  }

  /** Java's `trim` gives back a text padded with whitespace on both sides. */
  lemma JavaTrimPadded(before: string, x: string, after: string)
    requires IsBlank(before) && IsBlank(after)
    requires x != [] ==> !IsJavaSpace(x[0]) && !IsJavaSpace(x[|x| - 1])
    ensures JavaTrim(before + x + after) == x
  {
    assert before + x + after == before + (x + after);
    if x == [] {
      assert forall k | 0 <= k < |before + x + after| :: IsJavaSpace((before + x + after)[k]);
    } else {
      assert (x + after)[0] == x[0];
      TrimStartPadded(before, x + after, IsJavaSpace);
      TrimEndPadded(x, after, IsJavaSpace);
    }
  }

  /** JavaScript `s.replace(/pat/g, '')` for a pattern without metacharacters. */
  function RemoveAll(s: string, pat: string): (r: string)
    requires |pat| > 0
    ensures |r| <= |s|
    ensures !Contains(s, pat) ==> r == s
  {
    if |s| < |pat| then s
    else if s[..|pat|] == pat then
      assert OccursAt(s, pat, 0);
      RemoveAll(s[|pat|..], pat)
    else
      var rest := RemoveAll(s[1..], pat);
      assert !Contains(s, pat) ==> !Contains(s[1..], pat) by {
        if Contains(s[1..], pat) {
          var i :| 0 <= i <= |s[1..]| - |pat| && OccursAt(s[1..], pat, i);
          assert s[i + 1..i + 1 + |pat|] == s[1..][i..i + |pat|];
          assert OccursAt(s, pat, i + 1);
        }
      }
      assert s == [s[0]] + s[1..];
      [s[0]] + rest
  }

  /**
   * JavaScript `s.substring(a, b)`: both ends are clamped to `[0, |s|]` and
   * swapped when the first exceeds the second.
   */
  function JsSubstring(s: string, a: int, b: int): (r: string)
    ensures |r| <= |s|
  {
    var x := if a < 0 then 0 else if a > |s| then |s| else a;
    var y := if b < 0 then 0 else if b > |s| then |s| else b;
    if x <= y then s[x..y] else s[y..x]
  }

  /** Several texts put back together, with nothing between them. */
  function Concat(texts: seq<string>): string
  {
    if texts == [] then [] else texts[0] + Concat(texts[1..])
  }

  /** Java `String.join(sep, parts)` / JavaScript `parts.join(sep)`. */
  function Join(parts: seq<string>, sep: string): (r: string)
    ensures parts == [] ==> r == []
    ensures |parts| == 1 ==> r == parts[0]
  {
    if |parts| == 0 then []
    else if |parts| == 1 then parts[0]
    else Join(parts[..|parts| - 1], sep) + sep + parts[|parts| - 1]
  }

  /** The format characters of Minecraft colour codes: `[0-9a-fk-or]`. */
  predicate IsFormatCode(c: char)
  {
    ('0' <= c <= '9') || ('a' <= c <= 'f') || ('k' <= c <= 'o') || c == 'r'
  }

  /**
   * Java `s.replaceAll("§[0-9a-fk-or]", "")`: every section sign followed by a
   * format character is removed together with that character, left to right.
   */
  function StripColorCodes(s: string): (r: string)
    ensures |r| <= |s|
    ensures (forall k | 0 <= k < |s| :: s[k] != '§') ==> r == s
  {
    if |s| == 0 then s
    else if |s| >= 2 && s[0] == '§' && IsFormatCode(s[1]) then StripColorCodes(s[2..])
    else [s[0]] + StripColorCodes(s[1..])
  }

  /**
   * Where to cut `s` so that the piece is at most `limit` long: at the last
   * space at or before `limit` when that space lies beyond `threshold`,
   * otherwise at `limit` itself.
   */
  function BreakAt(s: string, limit: nat, threshold: nat): (r: nat)
    requires limit < |s|
    ensures r <= limit
    ensures threshold < r || r == limit
    ensures r < limit ==> s[r] == ' ' && forall k | r < k <= limit :: s[k] != ' '
    ensures (forall k | threshold < k <= limit :: s[k] != ' ') ==> r == limit
    ensures (exists k | threshold < k <= limit :: s[k] == ' ') ==> s[r] == ' '
  {
    var lastSpace := LastIndexOfFrom(s, ' ', limit);
    if lastSpace > threshold then lastSpace else limit
  }
  predicate IsDigit(c: char)
  {
    '0' <= c <= '9'
  }

  function DigitChar(d: nat): (c: char)
    requires d < 10
    ensures IsDigit(c) && c as int - '0' as int == d
  {
    ('0' as int + d) as char
  }

  /** Decimal digits of a natural number, without leading zeros. */
  function NatString(n: nat): (r: string)
    ensures |r| >= 1 && forall k | 0 <= k < |r| :: IsDigit(r[k])
    ensures r[0] == '0' ==> n == 0
    decreases n
  {
    if n < 10 then [DigitChar(n)] else NatString(n / 10) + [DigitChar(n % 10)]
  }

  /** The number a string of decimal digits denotes. */
  function DigitsValue(s: string): nat
    requires forall k | 0 <= k < |s| :: IsDigit(s[k])
  {
    if |s| == 0 then 0
    else
      assert IsDigit(s[|s| - 1]);
      DigitsValue(s[..|s| - 1]) * 10 + (s[|s| - 1] as int - '0' as int)
  }

  /** Reading back the digits gives the number: `NatString` is injective. */
  lemma {:induction false} NatStringRoundTrip(n: nat)
    ensures DigitsValue(NatString(n)) == n
    decreases n
  {
    if n >= 10 {
      var s := NatString(n / 10);
      var d := DigitChar(n % 10);
      assert (s + [d])[..|s + [d]| - 1] == s;
      NatStringRoundTrip(n / 10);
    }
  }

  /** Java's `"" + n` for an `int`. */
  function IntString(n: int): (r: string)
    ensures |r| >= 1
    ensures n < 0 <==> r[0] == '-'
  {
    if n < 0 then "-" + NatString(-n) else NatString(n)
  }
}
