/**
 * How the bot's replies reach the Minecraft chat: at most two parts of at most
 * 250 characters, broken at a late space, each part prefixed with the bot's
 * name tag, and mirrored to Discord without colour codes and tag.
 */
module Delivery {
  import opened Text

  const MaxPartLength: nat := 250
  const MaxParts: nat := 2
  /** `maxLength * 0.7`: an `int` index exceeds 175.0 exactly when it exceeds 175. */
  const BreakThreshold: nat := 175
  /** The longest line DiscordSRV lets through. */
  const MaxLineLength: nat := 256

  /** Length of the next part cut from the unsent text `rem`. */
  function PartLength(rem: string): (n: nat)
    ensures n <= |rem| && n <= MaxPartLength
    ensures |rem| <= MaxPartLength ==> n == |rem|
    ensures |rem| > MaxPartLength ==> BreakThreshold < n
    ensures n < |rem| ==> n == MaxPartLength || rem[n] == ' '
  {
    if |rem| <= MaxPartLength then |rem| else BreakAt(rem, MaxPartLength, BreakThreshold)
  }

  /** A long text with a space past 175 and up to 250 is cut at the last such space. */
  lemma PartLengthLastSpace(rem: string, k: nat)
    requires |rem| > MaxPartLength && BreakThreshold < k <= MaxPartLength && rem[k] == ' '
    ensures rem[PartLength(rem)] == ' ' && k <= PartLength(rem)
    ensures forall j | PartLength(rem) < j <= MaxPartLength :: rem[j] != ' '
  {
  }

  /**
   * The parts sent by the chained `sendMessageParts(full, start, partNumber)`
   * of ChatListener and DiscordSRVIntegration: each next part starts exactly
   * where the previous one ended, and the chain stops after part two.
   */
  function ChainParts(full: string, start: nat, partNumber: nat): seq<string>
    decreases if partNumber <= MaxParts then MaxParts + 1 - partNumber else 0
  {
    if partNumber > MaxParts || start >= |full| then []
    else
      var rem := full[start..];
      var n := PartLength(rem);
      [rem[..n]]
      + (if start + n < |full| && partNumber < MaxParts
         then ChainParts(full, start + n, partNumber + 1) else [])
  }

  lemma ConcatCons(head: string, tail: seq<string>)
    ensures Concat([head] + tail) == head + Concat(tail)
  {
    assert ([head] + tail)[1..] == tail;
  }

  lemma StartsWithAfter(s: string, n: nat, rest: string)
    requires n <= |s| && StartsWith(s[n..], rest)
    ensures StartsWith(s, s[..n] + rest)
  {
    assert (s[..n] + rest) == s[..n + |rest|];
  }

  /** A chain that goes on past its first part: that part, then the chain from where it ended. */
  lemma ChainPartsStep(full: string, start: nat, partNumber: nat)
    requires partNumber < MaxParts && start < |full|
    requires start + PartLength(full[start..]) < |full|
    ensures ChainParts(full, start, partNumber)
         == [full[start..][..PartLength(full[start..])]]
            + ChainParts(full, start + PartLength(full[start..]), partNumber + 1)
  {
  }

  /**
   * Every part of a chain is non-empty and at most 250 characters, and a
   * chain started at part one has at most two parts.
   */
  lemma {:induction false} ChainPartsBounds(full: string, start: nat, partNumber: nat)
    requires 1 <= partNumber
    ensures forall k | 0 <= k < |ChainParts(full, start, partNumber)| ::
      0 < |ChainParts(full, start, partNumber)[k]| <= MaxPartLength
    ensures |ChainParts(full, start, partNumber)| <= (if partNumber <= MaxParts then MaxParts + 1 - partNumber else 0)
    decreases if partNumber <= MaxParts then MaxParts + 1 - partNumber else 0
  {
    if partNumber <= MaxParts && start < |full| {
      var rem := full[start..];
      var n := PartLength(rem);
      var head := rem[..n];
      if start + n < |full| && partNumber < MaxParts {
        var tail := ChainParts(full, start + n, partNumber + 1);
        ChainPartsBounds(full, start + n, partNumber + 1);
        var parts: seq<string> := [head] + tail;
        ChainPartsStep(full, start, partNumber);
        forall k | 0 <= k < |parts|
          ensures 0 < |parts[k]| <= MaxPartLength
        {
          if k > 0 {
            assert parts[k] == tail[k - 1];
          }
        }
      } else {
        assert ChainParts(full, start, partNumber) == [head];
      }
    }
  }

  lemma PrefixBySame(s: string, p: string, q: string)
    requires StartsWith(s, p) && p == q
    ensures StartsWith(s, q)
  {
  }

  lemma StartsWithAfterSlice(full: string, start: nat, n: nat, rest: string)
    requires start + n <= |full| && StartsWith(full[start + n..], rest)
    ensures StartsWith(full[start..], full[start..][..n] + rest)
  {
    assert full[start + n..] == full[start..][n..];
    StartsWithAfter(full[start..], n, rest);
  }

  /** The text of a chain that goes on past its first part. */
  lemma ChainConcatStep(full: string, start: nat, partNumber: nat)
    requires partNumber < MaxParts && start < |full|
    requires start + PartLength(full[start..]) < |full|
    ensures Concat(ChainParts(full, start, partNumber))
         == full[start..][..PartLength(full[start..])]
            + Concat(ChainParts(full, start + PartLength(full[start..]), partNumber + 1))
  {
    var head := full[start..][..PartLength(full[start..])];
    var tail := ChainParts(full, start + PartLength(full[start..]), partNumber + 1);
    ChainPartsStep(full, start, partNumber);
    ConcatCons(head, tail);
  }

  /** A chain that stops after its first part is that part alone. */
  lemma ChainPartsLast(full: string, start: nat, partNumber: nat)
    requires partNumber <= MaxParts && start < |full|
    requires !(start + PartLength(full[start..]) < |full| && partNumber < MaxParts)
    ensures ChainParts(full, start, partNumber) == [full[start..][..PartLength(full[start..])]]
    ensures Concat(ChainParts(full, start, partNumber)) == full[start..][..PartLength(full[start..])]
  {
    var head := full[start..][..PartLength(full[start..])];
    assert ChainParts(full, start, partNumber) == [head];
    ConcatCons(head, []);
    assert head + [] == head;
  }

  /** The parts of a chain put together are exactly the text that follows `start`, up to where the chain stopped. */
  lemma {:induction false} ChainPartsPrefix(full: string, start: nat, partNumber: nat)
    requires start <= |full|
    ensures StartsWith(full[start..], Concat(ChainParts(full, start, partNumber)))
    decreases if partNumber <= MaxParts then MaxParts + 1 - partNumber else 0
  {
    if GoesOn(full, start, partNumber) {
      ChainPartsPrefix(full, start + PartLength(full[start..]), partNumber + 1);
    }
    PrefixStep(full, start, partNumber);
  }

  /** The chain from `start` sends a part and schedules the next one. */
  predicate GoesOn(full: string, start: nat, partNumber: nat)
  {
    partNumber < MaxParts && start < |full| && start + PartLength(full[start..]) < |full|
  }

  /** The chain from `start` starts the text that follows `start` when the chain after its first part does. */
  lemma PrefixStep(full: string, start: nat, partNumber: nat)
    requires start <= |full|
    requires GoesOn(full, start, partNumber) ==>
      var next := start + PartLength(full[start..]);
      StartsWith(full[next..], Concat(ChainParts(full, next, partNumber + 1)))
    ensures StartsWith(full[start..], Concat(ChainParts(full, start, partNumber)))
  {
    if partNumber > MaxParts || start >= |full| {
      assert Concat(ChainParts(full, start, partNumber)) == [];
    } else if GoesOn(full, start, partNumber) {
      PrefixGoesOn(full, start, partNumber);
    } else {
      PrefixStops(full, start, partNumber);
    }
  }

  /** A chain that goes on past its first part starts its text when the rest of the chain starts the rest. */
  lemma PrefixGoesOn(full: string, start: nat, partNumber: nat)
    requires partNumber < MaxParts && start < |full|
    requires start + PartLength(full[start..]) < |full|
    requires var next := start + PartLength(full[start..]);
      StartsWith(full[next..], Concat(ChainParts(full, next, partNumber + 1)))
    ensures StartsWith(full[start..], Concat(ChainParts(full, start, partNumber)))
  {
    var n := PartLength(full[start..]);
    var tail := Concat(ChainParts(full, start + n, partNumber + 1));
    StartsWithAfterSlice(full, start, n, tail);
    ChainConcatStep(full, start, partNumber);
    PrefixBySame(full[start..], full[start..][..n] + tail, Concat(ChainParts(full, start, partNumber)));
  }

  /** A chain that stops after its first part starts the text. */
  lemma PrefixStops(full: string, start: nat, partNumber: nat)
    requires partNumber <= MaxParts && start < |full|
    requires !(start + PartLength(full[start..]) < |full| && partNumber < MaxParts)
    ensures StartsWith(full[start..], Concat(ChainParts(full, start, partNumber)))
  {
    var n := PartLength(full[start..]);
    ChainPartsLast(full, start, partNumber);
    PrefixBySame(full[start..], full[start..][..n], Concat(ChainParts(full, start, partNumber)));
  }

  /** A reply of at most 250 characters goes out whole, as a single part. */
  lemma ShortReplyOnePart(full: string)
    requires 0 < |full| <= MaxPartLength
    ensures ChainParts(full, 0, 1) == [full]
  {
    var rem := full[0..];
    assert rem == full;
    assert PartLength(rem) == |full|;
    assert rem[..|full|] == full;
  }

  /** Of a reply longer than 500 characters some text never reaches the chat. */
  lemma LongReplyTruncated(full: string)
    requires |full| > MaxParts * MaxPartLength
    ensures |Concat(ChainParts(full, 0, 1))| < |full|
  {
    var n := PartLength(full[0..]);
    ChainConcatStep(full, 0, 1);
    ChainPartsLast(full, n, 2);
  }

  /** The lines of consecutive parts, the first numbered `partNumber`, each rendered by `render`. */
  function Numbered(render: (nat, string) -> string, parts: seq<string>, partNumber: nat): (lines: seq<string>)
    ensures |lines| == |parts|
  {
    if parts == [] then []
    else [render(partNumber, parts[0])] + Numbered(render, parts[1..], partNumber + 1)
  }

  lemma NumberedCons(render: (nat, string) -> string, part: string, tail: seq<string>, partNumber: nat)
    ensures Numbered(render, [part] + tail, partNumber) == [render(partNumber, part)] + Numbered(render, tail, partNumber + 1)
  {
    assert ([part] + tail)[1..] == tail;
  }

  /** The lines of a chain that goes on past its first part. */
  lemma ChainLinesStep(render: (nat, string) -> string, full: string, start: nat, partNumber: nat)
    requires partNumber < MaxParts && start < |full|
    requires start + PartLength(full[start..]) < |full|
    ensures Numbered(render, ChainParts(full, start, partNumber), partNumber)
         == [render(partNumber, full[start..][..PartLength(full[start..])])]
            + Numbered(render, ChainParts(full, start + PartLength(full[start..]), partNumber + 1), partNumber + 1)
  {
    ChainPartsStep(full, start, partNumber);
    NumberedCons(render, full[start..][..PartLength(full[start..])],
                 ChainParts(full, start + PartLength(full[start..]), partNumber + 1), partNumber);
  }

  /** The lines of a chain that stops after its first part. */
  lemma ChainLinesLast(render: (nat, string) -> string, full: string, start: nat, partNumber: nat)
    requires partNumber <= MaxParts && start < |full|
    requires !(start + PartLength(full[start..]) < |full| && partNumber < MaxParts)
    ensures Numbered(render, ChainParts(full, start, partNumber), partNumber)
         == [render(partNumber, full[start..][..PartLength(full[start..])])]
  {
    ChainPartsLast(full, start, partNumber);
    NumberedCons(render, full[start..][..PartLength(full[start..])], [], partNumber);
    assert [render(partNumber, full[start..][..PartLength(full[start..])])] + []
        == [render(partNumber, full[start..][..PartLength(full[start..])])];
  }

  /** The chain sends nothing once the text is used up or two parts are out. */
  lemma ChainLinesDone(render: (nat, string) -> string, full: string, start: nat, partNumber: nat)
    requires partNumber > MaxParts || start >= |full|
    ensures Numbered(render, ChainParts(full, start, partNumber), partNumber) == []
  {
  }

  /** The texts posted to the Discord webhook for some chat lines, when mirroring is on. */
  function Mirrors(mirror: bool, name: string, lines: seq<string>): (texts: seq<string>)
    ensures |texts| == (if mirror then |lines| else 0)
  {
    if !mirror || lines == [] then []
    else [MirrorText(lines[0], name)] + Mirrors(mirror, name, lines[1..])
  }

  /** The `k`-th line of numbered parts renders the `k`-th part. */
  lemma {:induction false} NumberedAt(render: (nat, string) -> string, parts: seq<string>, partNumber: nat, k: nat)
    requires k < |parts|
    ensures Numbered(render, parts, partNumber)[k] == render(partNumber + k, parts[k])
    decreases k
  {
    if k > 0 {
      NumberedAt(render, parts[1..], partNumber + 1, k - 1);
    }
  }

  /**
   * The parts sent by GameEventListener's `sendResponse` loop: like
   * `ChainParts`, except that the text left after a break is trimmed.
   */
  function TrimmedParts(remaining: string, partNumber: nat): seq<string>
    decreases if partNumber <= MaxParts then MaxParts + 1 - partNumber else 0
  {
    if remaining == [] || partNumber > MaxParts then []
    else if |remaining| <= MaxPartLength then [remaining]
    else
      var n := PartLength(remaining);
      [remaining[..n]] + TrimmedParts(JavaTrim(remaining[n..]), partNumber + 1)
  }

  /** A long unsent text: its first part, then the parts of the trimmed rest. */
  lemma TrimmedPartsStep(remaining: string, partNumber: nat)
    requires partNumber <= MaxParts && |remaining| > MaxPartLength
    ensures TrimmedParts(remaining, partNumber)
         == [remaining[..PartLength(remaining)]] + TrimmedParts(JavaTrim(remaining[PartLength(remaining)..]), partNumber + 1)
  {
  }

  /** The part the trimmed loop cuts from unsent text. */
  function NextPart(remaining: string): (part: string)
    ensures StartsWith(remaining, part)
  {
    if |remaining| <= MaxPartLength then remaining else remaining[..PartLength(remaining)]
  }

  /** What the trimmed loop leaves unsent after cutting a part: the trimmed rest. */
  function AfterPart(remaining: string): string
  {
    if |remaining| <= MaxPartLength then [] else JavaTrim(remaining[PartLength(remaining)..])
  }

  /** One turn of the trimmed loop, on the lines it sends. */
  lemma TrimmedLinesStep(render: (nat, string) -> string, remaining: string, partNumber: nat)
    requires remaining != [] && partNumber <= MaxParts
    ensures Numbered(render, TrimmedParts(remaining, partNumber), partNumber)
         == [render(partNumber, NextPart(remaining))]
            + Numbered(render, TrimmedParts(AfterPart(remaining), partNumber + 1), partNumber + 1)
  {
    var tail := TrimmedParts(AfterPart(remaining), partNumber + 1);
    if |remaining| <= MaxPartLength {
      assert TrimmedParts(remaining, partNumber) == [NextPart(remaining)] + tail;
    } else {
      TrimmedPartsStep(remaining, partNumber);
    }
    NumberedCons(render, NextPart(remaining), tail, partNumber);
  }

  /** The trimmed loop sends nothing once the text is used up or two parts are out. */
  lemma TrimmedLinesDone(render: (nat, string) -> string, remaining: string, partNumber: nat)
    requires remaining == [] || partNumber > MaxParts
    ensures Numbered(render, TrimmedParts(remaining, partNumber), partNumber) == []
  {
  }

  /** Every part is non-empty and at most 250 characters long. */
  predicate PartsBounded(parts: seq<string>)
  {
    forall k | 0 <= k < |parts| :: 0 < |parts[k]| <= MaxPartLength
  }

  /** The trimmed loop also sends at most two non-empty parts of at most 250 characters. */
  lemma TrimmedPartsBounds(remaining: string, partNumber: nat)
    requires 1 <= partNumber
    ensures PartsBounded(TrimmedParts(remaining, partNumber))
    ensures |TrimmedParts(remaining, partNumber)| <= (if partNumber <= MaxParts then MaxParts + 1 - partNumber else 0)
  {
    TrimmedPartsEach(remaining, partNumber);
    TrimmedPartsCount(remaining, partNumber);
  }

  lemma {:induction false} TrimmedPartsEach(remaining: string, partNumber: nat)
    ensures PartsBounded(TrimmedParts(remaining, partNumber))
    decreases if partNumber <= MaxParts then MaxParts + 1 - partNumber else 0
  {
    if remaining != [] && partNumber <= MaxParts && |remaining| > MaxPartLength {
      var head, rest := TrimmedPartsSplit(remaining, partNumber);
      TrimmedPartsEach(rest, partNumber + 1);
      BoundedCons(head, TrimmedParts(rest, partNumber + 1));
    }
  }

  /** How many more parts may still be sent when the next one is numbered `partNumber`. */
  function PartsLeft(partNumber: nat): nat
  {
    if partNumber <= MaxParts then MaxParts + 1 - partNumber else 0
  }

  lemma {:induction false} TrimmedPartsCount(remaining: string, partNumber: nat)
    ensures |TrimmedParts(remaining, partNumber)| <= PartsLeft(partNumber)
    decreases PartsLeft(partNumber)
  {
    var cut, head, rest := TrimmedPartsShape(remaining, partNumber);
    if cut {
      TrimmedPartsCount(rest, partNumber + 1);
      CountCons(TrimmedParts(remaining, partNumber), head, TrimmedParts(rest, partNumber + 1), partNumber);
    }
  }

  /** The trimmed loop sends nothing, one part and stops, or one part and goes on with a rest. */
  lemma TrimmedPartsShape(remaining: string, partNumber: nat) returns (cut: bool, head: string, rest: string)
    ensures !cut ==> |TrimmedParts(remaining, partNumber)| <= PartsLeft(partNumber)
    ensures cut ==> partNumber <= MaxParts
    ensures cut ==> TrimmedParts(remaining, partNumber) == [head] + TrimmedParts(rest, partNumber + 1)
  {
    cut := remaining != [] && partNumber <= MaxParts && |remaining| > MaxPartLength;
    head, rest := [], [];
    if cut {
      head, rest := TrimmedPartsSplit(remaining, partNumber);
    } else if remaining != [] && partNumber <= MaxParts {
      assert TrimmedParts(remaining, partNumber) == [remaining];
    }
  }

  /** One more part in front of those sent from the next number on stays within the count. */
  lemma CountCons(parts: seq<string>, head: string, tail: seq<string>, partNumber: nat)
    requires partNumber <= MaxParts && parts == [head] + tail && |tail| <= PartsLeft(partNumber + 1)
    ensures |parts| <= PartsLeft(partNumber)
  {
  }

  /** A long unsent text splits into a bounded non-empty first part and the parts of some rest. */
  lemma TrimmedPartsSplit(remaining: string, partNumber: nat) returns (head: string, rest: string)
    requires partNumber <= MaxParts && |remaining| > MaxPartLength
    ensures 0 < |head| <= MaxPartLength
    ensures TrimmedParts(remaining, partNumber) == [head] + TrimmedParts(rest, partNumber + 1)
  {
    head := remaining[..PartLength(remaining)];
    rest := JavaTrim(remaining[PartLength(remaining)..]);
    TrimmedPartsStep(remaining, partNumber);
  }

  /** A bounded non-empty part in front of bounded non-empty parts keeps them all bounded. */
  lemma BoundedCons(head: string, tail: seq<string>)
    requires 0 < |head| <= MaxPartLength
    requires PartsBounded(tail)
    ensures PartsBounded([head] + tail)
  {
    forall k | 0 <= k < |[head] + tail|
      ensures 0 < |([head] + tail)[k]| <= MaxPartLength
    {
      if k > 0 {
        assert ([head] + tail)[k] == tail[k - 1];
      }
    }
  }

  /** Unsent text before the last part always yields a first part, which starts it. */
  lemma TrimmedPartsFirst(remaining: string, partNumber: nat)
    requires remaining != [] && partNumber <= MaxParts
    ensures |TrimmedParts(remaining, partNumber)| > 0
    ensures StartsWith(remaining, TrimmedParts(remaining, partNumber)[0])
  {
    if |remaining| > MaxPartLength {
      var n := PartLength(remaining);
      assert TrimmedParts(remaining, partNumber)[0] == remaining[..n];
    }
  }

  /**
   * A line of ChatListener and GameEventListener: the name colour, the tag
   * `<Псич>` (as a player) or `[Псич]` (as the console), and for the second
   * part a grey "(продолжение)" marker.
   */
  function PsichLine(colorCode: string, sendAsPlayer: bool, partNumber: nat, part: string): (line: string)
    ensures StartsWith(line, colorCode)
    ensures |line| == |colorCode| + 7 + (if partNumber == 1 then 2 else 18) + |part|
    ensures line[|line| - |part|..] == part
  {
    colorCode + PsichTag(sendAsPlayer)
    + (if partNumber == 1 then "\U{A7}f" else "\U{A7}7(продолжение) \U{A7}f") + part
  }

  /**
   * A line of DiscordSRVIntegration: the name colour and the configured bot
   * name as tag; a line longer than 256 characters is cut to 256.
   */
  function NamedLine(colorCode: string, sendAsPlayer: bool, botName: string, part: string): (line: string)
    ensures |line| <= MaxLineLength
    ensures var full := colorCode + (if sendAsPlayer then "<" + botName + "> \U{A7}f" else "[" + botName + "] \U{A7}f") + part;
      StartsWith(full, line) && (|full| <= MaxLineLength ==> line == full)
  {
    var full := colorCode + (if sendAsPlayer then "<" + botName + "> \U{A7}f" else "[" + botName + "] \U{A7}f") + part;
    if |full| > MaxLineLength then full[..MaxLineLength] else full
  }

  /**
   * With the default tag a full 250-character part does not fit in 256
   * characters: its last five characters are cut off and, since the next part
   * starts after them, never shown.
   */
  lemma NamedLineDropsText(part: string)
    requires |part| == MaxPartLength
    ensures |NamedLine("\U{A7}e", true, "Псич", part)| == MaxLineLength
    ensures !StartsWith(NamedLine("\U{A7}e", true, "Псич", part), "\U{A7}e<Псич> \U{A7}f" + part)
  {
  }

  /** The leading whitespace count, as Java's `^\s*` matches it. */
  function LeadingRegexSpaces(s: string): (n: nat)
    ensures n <= |s|
    ensures forall k | 0 <= k < n :: IsRegexSpace(s[k])
    ensures n < |s| ==> !IsRegexSpace(s[n])
  {
    if |s| > 0 && IsRegexSpace(s[0]) then 1 + LeadingRegexSpaces(s[1..]) else 0
  }

  /**
   * `s.replaceAll("^\\s*[<\\[]" + name + "[>\\]]\\s*", "")` for a name without
   * regular-expression metacharacters: a leading tag `<name>` or `[name]`
   * (brackets may be mixed) is removed with the whitespace around it.
   */
  function StripTag(s: string, name: string): (r: string)
    ensures |r| <= |s|
  {
    var i := LeadingRegexSpaces(s);
    var close := i + 1 + |name|;
    if close < |s| && (s[i] == '<' || s[i] == '[') && OccursAt(s, name, i + 1)
       && (s[close] == '>' || s[close] == ']')
    then TrimStart(s[close + 1..], IsRegexSpace)
    else s
  }

  /** The text sent to the Discord webhook for a chat line. */
  function MirrorText(line: string, name: string): string
  {
    JavaTrim(StripTag(StripColorCodes(line), name))
  }

  /** Colour stripping passes through text that holds no section sign. */
  lemma {:induction false} StripPlainPrefix(a: string, rest: string)
    requires forall k | 0 <= k < |a| :: a[k] != '§'
    ensures StripColorCodes(a + rest) == a + StripColorCodes(rest)
  {
    if a != [] {
      var s := a + rest;
      calc {
        StripColorCodes(s);
        { assert s[0] == a[0] && s[0] != '§'; }
        [a[0]] + StripColorCodes(s[1..]);
        { assert s[1..] == a[1..] + rest; }
        [a[0]] + StripColorCodes(a[1..] + rest);
        { StripPlainPrefix(a[1..], rest); }
        [a[0]] + (a[1..] + StripColorCodes(rest));
        { assert a == [a[0]] + a[1..]; }
        a + StripColorCodes(rest);
      }
    } else {
      assert a + rest == rest;
    }
  }

  /** Trimming first some whitespace that Java's `trim` would remove anyway changes nothing. */
  lemma {:induction false} TrimAfterRegexSpaces(x: string)
    ensures JavaTrim(TrimStart(x, IsRegexSpace)) == JavaTrim(x)
  {
    if |x| > 0 && IsRegexSpace(x[0]) {
      assert TrimStart(x, IsRegexSpace) == TrimStart(x[1..], IsRegexSpace);
      TrimAfterRegexSpaces(x[1..]);
      assert IsJavaSpace(x[0]);
      assert TrimStart(x, IsJavaSpace) == TrimStart(x[1..], IsJavaSpace);
      assert JavaTrim(x) == TrimEnd(TrimStart(x, IsJavaSpace), IsJavaSpace);
      assert JavaTrim(x[1..]) == TrimEnd(TrimStart(x[1..], IsJavaSpace), IsJavaSpace);
    } else {
      assert TrimStart(x, IsRegexSpace) == x;
    }
  }

  /** The tag of a chat line, `<Псич> ` or `[Псич] `. */
  function PsichTag(sendAsPlayer: bool): string
  {
    if sendAsPlayer then "<Псич> " else "[Псич] "
  }

  lemma StripLineCodes(code: char, sendAsPlayer: bool, part: string)
    requires IsFormatCode(code)
    ensures StripColorCodes(PsichLine(['§', code], sendAsPlayer, 1, part))
         == PsichTag(sendAsPlayer) + StripColorCodes(part)
  {
    var tag := PsichTag(sendAsPlayer);
    var line := PsichLine(['§', code], sendAsPlayer, 1, part);
    assert line == ['§', code] + (tag + ("\U{A7}f" + part));
    assert line[2..] == tag + ("\U{A7}f" + part);
    assert StripColorCodes(line) == StripColorCodes(line[2..]);
    assert forall k | 0 <= k < |tag| :: tag[k] != '§';
    StripPlainPrefix(tag, "\U{A7}f" + part);
    assert ("\U{A7}f" + part)[2..] == part;
    assert StripColorCodes("\U{A7}f" + part) == StripColorCodes(part);
  }

  /** A line that starts with a bracketed name loses it and the whitespace after it. */
  lemma StripTagAtStart(line: string, name: string)
    requires 1 + |name| < |line|
    requires line[0] == '<' || line[0] == '['
    requires OccursAt(line, name, 1)
    requires line[1 + |name|] == '>' || line[1 + |name|] == ']'
    ensures StripTag(line, name) == TrimStart(line[|name| + 2..], IsRegexSpace)
  {
    assert !IsRegexSpace(line[0]);
    var i := LeadingRegexSpaces(line);
    assert i == 0;
    var close := i + 1 + |name|;
    assert close < |line| && OccursAt(line, name, i + 1);
    assert line[close + 1..] == line[|name| + 2..];
  }

  /** The shape of a tagged line: an opening bracket, the name, a closing bracket, a space. */
  lemma TagShape(sendAsPlayer: bool, x: string)
    ensures (PsichTag(sendAsPlayer) + x)[0] == '<' || (PsichTag(sendAsPlayer) + x)[0] == '['
    ensures OccursAt(PsichTag(sendAsPlayer) + x, "Псич", 1)
    ensures (PsichTag(sendAsPlayer) + x)[5] == '>' || (PsichTag(sendAsPlayer) + x)[5] == ']'
    ensures (PsichTag(sendAsPlayer) + x)[6..] == " " + x
  {
    var tag := PsichTag(sendAsPlayer);
    var line := tag + x;
    assert line[..7] == tag;
    assert line[1..5] == tag[1..5] == "Псич";
    assert line[6..] == tag[6..] + x;
  }

  /** The regular expression removes the tag `<Псич> ` or `[Псич] ` with the whitespace after it. */
  lemma StripPsichTag(sendAsPlayer: bool, x: string)
    ensures StripTag(PsichTag(sendAsPlayer) + x, "Псич") == TrimStart(x, IsRegexSpace)
  {
    var line := PsichTag(sendAsPlayer) + x;
    assert StripTag(line, "Псич") == TrimStart(line[6..], IsRegexSpace) by {
      TagShape(sendAsPlayer, x);
      StripTagAtStart(line, "Псич");
    }
    assert TrimStart(line[6..], IsRegexSpace) == TrimStart(x, IsRegexSpace) by {
      TagShape(sendAsPlayer, x);
      var spaced := " " + x;
      assert spaced[1..] == x;
      assert TrimStart(spaced, IsRegexSpace) == TrimStart(spaced[1..], IsRegexSpace);
    }
  }

  /**
   * What Discord receives for the first part of a reply: the part itself with
   * colour codes removed and trimmed, the name colour and tag gone.
   */
  lemma MirrorOfFirstPart(code: char, sendAsPlayer: bool, part: string)
    requires IsFormatCode(code)
    ensures MirrorText(PsichLine(['§', code], sendAsPlayer, 1, part), "Псич")
         == JavaTrim(StripColorCodes(part))
  {
    StripLineCodes(code, sendAsPlayer, part);
    StripPsichTag(sendAsPlayer, StripColorCodes(part));
    TrimAfterRegexSpaces(StripColorCodes(part));
  }
}
