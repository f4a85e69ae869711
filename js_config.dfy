/**
 * The Telegram bot's configuration, read once from the environment: the API
 * keys of each provider (a primary variable and numbered `_2`, `_3`, ...
 * variables), the administrators' ids and the bot's own id taken from its
 * token. The environment is a map from variable names to values; a missing
 * variable and an empty value both read as absent.
 */
module JsConfig {
  import opened Wrappers
  import opened Text

  type Env = map<string, string>

  /** `process.env[name]` is truthy: set, and not the empty string. */
  predicate Present(env: Env, name: string)
  {
    name in env && env[name] != ""
  }

  /** The numbered variable `base_i`. */
  function KeyName(base: string, i: nat): string
  {
    base + "_" + NatString(i)
  }

  /** Different numbers name different variables. */
  lemma KeyNameInjective(base: string, i: nat, j: nat)
    requires KeyName(base, i) == KeyName(base, j)
    ensures i == j
  {
    assert KeyName(base, i)[|base| + 1..] == NatString(i);
    assert KeyName(base, j)[|base| + 1..] == NatString(j);
    NatStringRoundTrip(i);
    NatStringRoundTrip(j);
  }

  /** The set variables numbered `i` or more: finite, so the scan ends. */
  ghost function Later(env: Env, base: string, i: nat): set<string>
  {
    set name | name in env.Keys && NumberedFrom(base, name, i)
  }

  /** `name` is `base_j` for some `j` at least `i`. */
  ghost predicate NumberedFrom(base: string, name: string, i: nat)
  {
    exists j: nat :: j >= i && name == KeyName(base, j)
  }

  /** Moving past a set variable leaves strictly fewer variables ahead. */
  lemma LaterShrinks(env: Env, base: string, i: nat)
    requires KeyName(base, i) in env
    ensures Later(env, base, i + 1) < Later(env, base, i)
  {
    assert KeyName(base, i) in Later(env, base, i);
    if KeyName(base, i) in Later(env, base, i + 1) {
      var j: nat :| j >= i + 1 && KeyName(base, i) == KeyName(base, j);
      KeyNameInjective(base, i, j);
    }
  }

  /** The key variable `name` contributes: its trimmed value, unless that is empty. */
  function TrimmedKey(env: Env, name: string): (r: seq<string>)
    ensures |r| <= 1 && (r != [] ==> r[0] != "")
  {
    if name in env && JsTrim(env[name]) != "" then [JsTrim(env[name])] else []
  }

  /**
   * The keys of the numbered variables from `i` on: the scan goes on while
   * the variable is set, skips values that trim to nothing, and stops at the
   * first variable missing or empty.
   */
  function KeysFrom(env: Env, base: string, i: nat): (r: seq<string>)
    ensures forall k | 0 <= k < |r| :: r[k] != ""
    ensures !Present(env, KeyName(base, i)) ==> r == []
    decreases Later(env, base, i)
  {
    if Present(env, KeyName(base, i)) then
      LaterShrinks(env, base, i);
      TrimmedKey(env, KeyName(base, i)) + KeysFrom(env, base, i + 1)
    else []
  }

  /** Drops the empty strings, keeping the order. */
  function NonEmpty(s: seq<string>): (r: seq<string>)
    ensures |r| <= |s|
  {
    if s == [] then [] else (if s[0] != "" then [s[0]] else []) + NonEmpty(s[1..])
  }

  /** The trimmed values of `base_i` ... `base_(n-1)`, in numeric order. */
  function ValuesBetween(env: Env, base: string, i: nat, n: nat): (r: seq<string>)
    ensures |r| == if i <= n then n - i else 0
    decreases n - i
  {
    if i >= n then []
    else [if KeyName(base, i) in env then JsTrim(env[KeyName(base, i)]) else ""] + ValuesBetween(env, base, i + 1, n)
  }

  /**
   * When `base_i` ... `base_(n-1)` are set and `base_n` is not, the scan
   * yields the trimmed non-empty values of exactly those, in numeric order;
   * anything numbered after the gap is never read.
   */
  lemma {:induction false} ScanStopsAtGap(env: Env, base: string, i: nat, n: nat)
    requires i <= n
    requires forall j | i <= j < n :: Present(env, KeyName(base, j))
    requires !Present(env, KeyName(base, n))
    ensures KeysFrom(env, base, i) == NonEmpty(ValuesBetween(env, base, i, n))
    decreases n - i
  {
    var vals := ValuesBetween(env, base, i, n);
    if i == n {
      assert vals == [];
    } else {
      ScanStopsAtGap(env, base, i + 1, n);
      var name := KeyName(base, i);
      var v := JsTrim(env[name]);
      assert vals == [v] + ValuesBetween(env, base, i + 1, n);
      assert vals[1..] == ValuesBetween(env, base, i + 1, n);
      assert NonEmpty(vals) == (if v != "" then [v] else []) + NonEmpty(vals[1..]);
      assert TrimmedKey(env, name) == (if v != "" then [v] else []);
      assert KeysFrom(env, base, i) == TrimmedKey(env, name) + KeysFrom(env, base, i + 1);
    }
  }

  /** The primary variable's key: its trimmed value, unless that is empty. */
  function PrimaryKey(env: Env, base: string): (r: seq<string>)
    ensures |r| <= 1 && (r != [] ==> r[0] != "")
  {
    TrimmedKey(env, base)
  }

  /** What one more step of the scan adds to the keys found so far. */
  lemma ScanStep(env: Env, base: string, i: nat, keys: seq<string>)
    requires Present(env, KeyName(base, i))
    ensures var key := JsTrim(env[KeyName(base, i)]);
      keys + KeysFrom(env, base, i) == (if key != "" then keys + [key] else keys) + KeysFrom(env, base, i + 1)
  {
    var name := KeyName(base, i);
    var rest := KeysFrom(env, base, i + 1);
    var key := JsTrim(env[name]);
    KeysFromStep(env, base, i);
    AppendKey(keys, key, TrimmedKey(env, name), rest);
  }

  /** Appending the key a step contributes, if any, then the rest. */
  lemma AppendKey(keys: seq<string>, key: string, head: seq<string>, rest: seq<string>)
    requires head == if key != "" then [key] else []
    ensures keys + (head + rest) == (if key != "" then keys + [key] else keys) + rest
  {
    if key != "" {
      assert keys + ([key] + rest) == (keys + [key]) + rest;
    } else {
      assert [] + rest == rest;
    }
  }

  /** One step of the scan over a set variable. */
  lemma KeysFromStep(env: Env, base: string, i: nat)
    requires Present(env, KeyName(base, i))
    ensures KeysFrom(env, base, i) == TrimmedKey(env, KeyName(base, i)) + KeysFrom(env, base, i + 1)
  {
  }

  /** Appending a non-empty key keeps every key non-empty. */
  lemma AppendNonEmpty(keys: seq<string>, key: string)
    requires forall k | 0 <= k < |keys| :: keys[k] != ""
    requires key != ""
    ensures forall k | 0 <= k < |keys + [key]| :: (keys + [key])[k] != ""
  {
  }

  /**
   * One provider's key list: the primary variable, then the numbered ones
   * from `_2` on, as `KeysFrom` reads them.
   */
  method CollectKeys(env: Env, base: string) returns (keys: seq<string>)
    ensures keys == PrimaryKey(env, base) + KeysFrom(env, base, 2)
    ensures forall k | 0 <= k < |keys| :: keys[k] != ""
  {
    keys := [];
    if base in env && JsTrim(env[base]) != "" {
      keys := keys + [JsTrim(env[base])];
    }
    assert keys == PrimaryKey(env, base);
    var i := 2;
    while Present(env, KeyName(base, i))
      invariant i >= 2
      invariant keys + KeysFrom(env, base, i) == PrimaryKey(env, base) + KeysFrom(env, base, 2)
      invariant forall k | 0 <= k < |keys| :: keys[k] != ""
      decreases Later(env, base, i)
    {
      LaterShrinks(env, base, i);
      var key := JsTrim(env[KeyName(base, i)]);
      ScanStep(env, base, i, keys);
      if key != "" {
        AppendNonEmpty(keys, key);
        keys := keys + [key];
      }
      i := i + 1;
    }
    assert KeysFrom(env, base, i) == [];
    assert keys + [] == keys;
  }

  // ---------------------------------------------------------------------
  // Numbers
  // ---------------------------------------------------------------------

  /** How many decimal digits `s` starts with. */
  function LeadingDigits(s: string): (r: nat)
    ensures r <= |s|
    ensures forall k | 0 <= k < r :: IsDigit(s[k])
    ensures r < |s| ==> !IsDigit(s[r])
  {
    if s != [] && IsDigit(s[0]) then 1 + LeadingDigits(s[1..]) else 0
  }

  /**
   * `parseInt(t, 10)`: leading white space, an optional sign, then as many
   * decimal digits as there are; no digit at all is NaN, here `None`.
   */
  function ParseInt(t: string): Option<int>
  {
    var u := TrimStart(t, IsJsSpace);
    var negative := |u| > 0 && u[0] == '-';
    var rest := if |u| > 0 && (u[0] == '-' || u[0] == '+') then u[1..] else u;
    var n := LeadingDigits(rest);
    if n == 0 then None
    else
      var value: int := DigitsValue(rest[..n]);
      Some(if negative then -value else value)
  }

  /** The digits of `n` read back as `n`, whatever non-digit text follows them. */
  lemma ParseNatString(n: nat, tail: string)
    requires tail == [] || !IsDigit(tail[0])
    ensures ParseInt(NatString(n) + tail) == Some(n)
  {
    var d := NatString(n);
    var s := d + tail;
    assert s[0] == d[0] && IsDigit(s[0]);
    assert TrimStart(s, IsJsSpace) == s;
    DigitsThenOther(d, tail);
    assert s[..|d|] == d;
    assert ParseInt(s) == Some(DigitsValue(d));
    NatStringRoundTrip(n);
  }

  /** The leading digits of digits followed by a non-digit are those digits. */
  lemma DigitsThenOther(d: string, tail: string)
    requires forall k | 0 <= k < |d| :: IsDigit(d[k])
    requires tail == [] || !IsDigit(tail[0])
    ensures LeadingDigits(d + tail) == |d|
  {
    var s := d + tail;
    assert forall k | 0 <= k < |d| :: s[k] == d[k];
    assert |d| < |s| ==> s[|d|] == tail[0];
  }

  // ---------------------------------------------------------------------
  // parseAdminIds
  // ---------------------------------------------------------------------

  /** The separators of `split(/[,\s]+/)`: a comma or white space. */
  predicate IsSeparator(c: char)
  {
    c == ',' || IsJsSpace(c)
  }

  /** How many characters `s` ends with that are not separators. */
  function TrailingRun(s: string): (r: nat)
    ensures r <= |s|
    ensures forall k | |s| - r <= k < |s| :: !IsSeparator(s[k])
    ensures r < |s| ==> IsSeparator(s[|s| - r - 1])
  {
    if s != [] && !IsSeparator(s[|s| - 1]) then 1 + TrailingRun(s[..|s| - 1]) else 0
  }

  /**
   * The tokens of `s.split(/[,\s]+/)`, in order, leaving out the empty first
   * and last tokens a separator at either end gives; `parseInt` reads those
   * as NaN, so the filter drops them anyway.
   */
  function Tokens(s: string): (r: seq<string>)
    ensures forall k | 0 <= k < |r| :: r[k] != "" && forall x | 0 <= x < |r[k]| :: !IsSeparator(r[k][x])
    decreases |s|
  {
    if s == [] then []
    else if IsSeparator(s[|s| - 1]) then Tokens(s[..|s| - 1])
    else
      var n := TrailingRun(s);
      Tokens(s[..|s| - n]) + [s[|s| - n..]]
  }

  /** One token's id: `parseInt(id.trim(), 10)` when that is a number above 0. */
  function TokenId(token: string): (r: Option<int>)
    ensures r.Some? ==> r.value > 0
  {
    var v := ParseInt(JsTrim(token));
    if v.Some? && v.value > 0 then v else None
  }

  /** `.map(id => parseInt(id.trim(), 10)).filter(id => !isNaN(id) && id > 0)`. */
  function PositiveIds(tokens: seq<string>): (r: seq<int>)
    ensures |r| <= |tokens|
    ensures forall k | 0 <= k < |r| :: r[k] > 0
  {
    if tokens == [] then []
    else
      var init := PositiveIds(tokens[..|tokens| - 1]);
      match TokenId(tokens[|tokens| - 1])
      case Some(id) => init + [id]
      case None => init
  }

  /** `parseAdminIds(ADMIN_USER_ID)`: nothing for a missing or empty variable. */
  function AdminIds(value: Option<string>): (r: seq<int>)
    ensures value.None? || value == Some("") ==> r == []
    ensures forall k | 0 <= k < |r| :: r[k] > 0
  {
    if value.None? || value.value == "" then [] else PositiveIds(Tokens(value.value))
  }

  /** The decimal renderings of some ids. */
  function Rendered(ids: seq<nat>): seq<string>
  {
    seq(|ids|, k requires 0 <= k < |ids| => NatString(ids[k]))
  }

  /** A run of non-separators after a separator (or at the start) is the whole trailing run. */
  lemma {:induction false} TrailingRunOf(a: string, last: string)
    requires a == [] || IsSeparator(a[|a| - 1])
    requires forall x | 0 <= x < |last| :: !IsSeparator(last[x])
    ensures TrailingRun(a + last) == |last|
    decreases |last|
  {
    if last == [] {
      assert a + last == a;
    } else {
      var s := a + last;
      assert s[|s| - 1] == last[|last| - 1];
      assert s[..|s| - 1] == a + last[..|last| - 1];
      TrailingRunOf(a, last[..|last| - 1]);
    }
  }

  /** Splitting comma-joined tokens gives the tokens back. */
  lemma {:induction false} TokensOfJoin(parts: seq<string>)
    requires forall k | 0 <= k < |parts| :: parts[k] != "" && forall x | 0 <= x < |parts[k]| :: !IsSeparator(parts[k][x])
    ensures Tokens(Join(parts, ",")) == parts
    decreases |parts|
  {
    if |parts| == 1 {
      TrailingRunOf([], parts[0]);
      assert parts[0][..0] == [];
    } else if |parts| > 1 {
      var init := parts[..|parts| - 1];
      var last := parts[|parts| - 1];
      assert parts == init + [last];
      var j := Join(init, ",");
      var s := j + "," + last;
      assert Join(parts, ",") == s;
      assert Tokens(s) == Tokens(j + ",") + [last] by {
        assert forall x | 0 <= x < |last| :: !IsSeparator(last[x]);
        TrailingRunOf(j + ",", last);
        assert s[..|s| - |last|] == j + ",";
        assert s[|s| - |last|..] == last;
        assert s[|s| - 1] == last[|last| - 1];
        TokensAtWord(s, |last|);
      }
      assert Tokens(j + ",") == Tokens(j) by {
        assert (j + ",")[..|j + ","| - 1] == j;
        TokensAtSeparator(j + ",");
      }
      assert Tokens(j) == init by {
        assert forall k | 0 <= k < |init| :: init[k] == parts[k];
        TokensOfJoin(init);
      }
    }
  }

  /** A string ending in a word: the tokens before it, then the word. */
  lemma TokensAtWord(s: string, n: nat)
    requires s != [] && !IsSeparator(s[|s| - 1]) && TrailingRun(s) == n
    ensures Tokens(s) == Tokens(s[..|s| - n]) + [s[|s| - n..]]
  {
  }

  /** A string ending in a separator has the tokens of what comes before it. */
  lemma TokensAtSeparator(s: string)
    requires s != [] && IsSeparator(s[|s| - 1])
    ensures Tokens(s) == Tokens(s[..|s| - 1])
  {
  }

  /** Digits have no white space to trim. */
  lemma DigitsTrimmed(d: string)
    requires d != [] && forall k | 0 <= k < |d| :: IsDigit(d[k])
    ensures JsTrim(d) == d
  {
    assert !IsJsSpace(d[0]) && !IsJsSpace(d[|d| - 1]);
    assert TrimStart(d, IsJsSpace) == d;
    assert TrimEnd(d, IsJsSpace) == d;
  }

  /** One rendered id reads back as itself. */
  lemma ParseRendered(n: nat)
    requires n > 0
    ensures TokenId(NatString(n)) == Some(n)
  {
    var d := NatString(n);
    DigitsTrimmed(d);
    ParseNatString(n, "");
    assert d + "" == d;
  }

  /** Reading back the rendered positive ids gives the ids. */
  lemma {:induction false} PositiveIdsOfRendered(ids: seq<nat>)
    requires forall k | 0 <= k < |ids| :: ids[k] > 0
    ensures PositiveIds(Rendered(ids)) == ids
    decreases |ids|
  {
    var t := Rendered(ids);
    if ids == [] {
      assert t == [];
    } else {
      var n := ids[|ids| - 1];
      var init := ids[..|ids| - 1];
      assert ids == init + [n];
      assert t[..|t| - 1] == Rendered(init);
      PositiveIdsOfRendered(init);
      assert t[|t| - 1] == NatString(n);
      ParseRendered(n);
      PositiveIdsStep(t, n);
    }
  }

  /** A last token that reads as an id adds that id at the end. */
  lemma PositiveIdsStep(tokens: seq<string>, id: int)
    requires tokens != [] && TokenId(tokens[|tokens| - 1]) == Some(id)
    ensures PositiveIds(tokens) == PositiveIds(tokens[..|tokens| - 1]) + [id]
  {
  }

  /** Digits are not separators. */
  lemma DigitsAreNotSeparators(ids: seq<nat>)
    ensures forall k | 0 <= k < |ids| :: Rendered(ids)[k] != "" && forall x | 0 <= x < |Rendered(ids)[k]| :: !IsSeparator(Rendered(ids)[k][x])
  {
    forall k | 0 <= k < |ids|
      ensures forall x | 0 <= x < |Rendered(ids)[k]| :: !IsSeparator(Rendered(ids)[k][x])
    {
      var d := NatString(ids[k]);
      assert forall x | 0 <= x < |d| :: IsDigit(d[x]);
    }
  }

  /** Positive ids written with commas between them parse back to the same ids, in order. */
  lemma AdminIdsRoundTrip(ids: seq<nat>)
    requires ids != [] && forall k | 0 <= k < |ids| :: ids[k] > 0
    ensures AdminIds(Some(Join(Rendered(ids), ","))) == ids
  {
    DigitsAreNotSeparators(ids);
    TokensOfJoin(Rendered(ids));
    PositiveIdsOfRendered(ids);
    assert Join(Rendered(ids), ",") != "" by {
      if |ids| == 1 {
        assert Join(Rendered(ids), ",") == NatString(ids[0]);
      } else {
        assert |Tokens(Join(Rendered(ids), ","))| > 0;
      }
    }
  }

  /** `adminId`: the first administrator, kept for older callers. */
  function AdminId(ids: seq<int>): (r: Option<int>)
    ensures r.None? <==> ids == []
    ensures r.Some? ==> r.value in ids
  {
    if ids == [] then None else Some(ids[0])
  }

  /** `isAdmin(userId)`. */
  predicate IsAdmin(ids: seq<int>, user: int)
  {
    user in ids
  }

  /** Nobody is an administrator when `ADMIN_USER_ID` is missing; the first id always is one. */
  lemma AdminFacts(value: Option<string>, user: int)
    ensures value.None? ==> !IsAdmin(AdminIds(value), user)
    ensures AdminId(AdminIds(value)).Some? ==> IsAdmin(AdminIds(value), AdminId(AdminIds(value)).value)
    ensures IsAdmin(AdminIds(value), user) ==> user > 0
  {
  }

  // ---------------------------------------------------------------------
  // The whole configuration
  // ---------------------------------------------------------------------

  /** `parseInt(token.split(':')[0], 10)`: the number before the first colon. */
  function BotId(token: string): (r: Option<int>)
    ensures IndexOfChar(token, ':') == -1 ==> r == ParseInt(token)
  {
    var colon := IndexOfChar(token, ':');
    ParseInt(if colon < 0 then token else token[..colon])
  }

  /** A token `<id>:<secret>` gives the id. */
  lemma BotIdOfToken(id: nat, secret: string)
    ensures BotId(NatString(id) + ":" + secret) == Some(id)
  {
    var d := NatString(id);
    var t := d + ":" + secret;
    assert forall k | 0 <= k < |d| :: t[k] == d[k] && IsDigit(d[k]);
    assert t[|d|] == ':';
    assert IndexOfChar(t, ':') == |d|;
    assert t[..|d|] == d + "";
    ParseNatString(id, "");
  }

  const GeminiBase := "GOOGLE_GEMINI_API_KEY"
  const GroqBase := "GROQ_API_KEY"
  const DeepSeekBase := "DEEPSEEK_API_KEY"

  datatype Settings = Settings(token: string, botId: Option<int>, adminIds: seq<int>, adminId: Option<int>,
                               geminiKeys: seq<string>, groqKeys: seq<string>, deepseekKeys: seq<string>)

  /**
   * Loading the module: the three key lists, the administrators and the bot
   * id. Without `TELEGRAM_BOT_TOKEN` reading its prefix fails, and loading
   * with it.
   */
  method Load(env: Env) returns (r: Option<Settings>)
    ensures "TELEGRAM_BOT_TOKEN" !in env <==> r.None?
    ensures r.Some? ==> var s := r.value;
      && s.token == env["TELEGRAM_BOT_TOKEN"]
      && s.botId == BotId(s.token)
      && s.geminiKeys == PrimaryKey(env, GeminiBase) + KeysFrom(env, GeminiBase, 2)
      && s.groqKeys == PrimaryKey(env, GroqBase) + KeysFrom(env, GroqBase, 2)
      && s.deepseekKeys == PrimaryKey(env, DeepSeekBase) + KeysFrom(env, DeepSeekBase, 2)
      && s.adminIds == AdminIds(if "ADMIN_USER_ID" in env then Some(env["ADMIN_USER_ID"]) else None)
      && s.adminId == AdminId(s.adminIds)
  {
    var gemini := CollectKeys(env, GeminiBase);
    var groq := CollectKeys(env, GroqBase);
    var deepseek := CollectKeys(env, DeepSeekBase);
    var admins := AdminIds(if "ADMIN_USER_ID" in env then Some(env["ADMIN_USER_ID"]) else None);
    if "TELEGRAM_BOT_TOKEN" !in env {
      return None;
    }
    var token := env["TELEGRAM_BOT_TOKEN"];
    r := Some(Settings(token, BotId(token), admins, AdminId(admins), gemini, groq, deepseek));
  }
}
