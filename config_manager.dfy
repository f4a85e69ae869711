/**
 * The plugin configuration: values read from the YAML file with their
 * defaults, the legacy spontaneous-chance key, the removal of empty API keys,
 * and the translation of the configured name colour into a Minecraft colour
 * code.
 */
module Config {
  import opened Wrappers
  import opened Text

  /**
   * A value in the configuration file. A decimal number carries the text
   * Java's `Double.toString` gives for it, which is what reading it as a
   * string yields.
   */
  datatype Value = Text(s: string) | Number(r: real, shown: string) | Whole(i: int) | Flag(b: bool) | Texts(items: seq<string>)

  /** The settings `loadConfig` reads, one per dotted path of the YAML file. */
  datatype Key =
    | AiGeminiKeys | AiGroqKeys | AiDeepseekKeys
    | ChatTrigger | ChatSpontaneousChance | ChatSpontaneousChanceMessage
    | ChatSpontaneousChanceJoinQuit | ChatSpontaneousChanceAdvancement | ChatSpontaneousChanceDeath
    | ChatContextSize | ChatMinMessageLength | ChatBotName | ChatNameColor | ChatSendAsPlayer
    | DiscordEnabled | DiscordWebhookUrl | DiscordUsername | DiscordAvatarUrl
    | PromptSystem

  /** The dotted path of a setting in the file. */
  function Path(key: Key): string
  {
    match key
    case AiGeminiKeys => "ai.gemini-keys"
    case AiGroqKeys => "ai.groq-keys"
    case AiDeepseekKeys => "ai.deepseek-keys"
    case ChatTrigger => "chat.trigger"
    case ChatSpontaneousChance => "chat.spontaneous-chance"
    case ChatSpontaneousChanceMessage => "chat.spontaneous-chance-message"
    case ChatSpontaneousChanceJoinQuit => "chat.spontaneous-chance-join-quit"
    case ChatSpontaneousChanceAdvancement => "chat.spontaneous-chance-advancement"
    case ChatSpontaneousChanceDeath => "chat.spontaneous-chance-death"
    case ChatContextSize => "chat.context-size"
    case ChatMinMessageLength => "chat.min-message-length"
    case ChatBotName => "chat.bot-name"
    case ChatNameColor => "chat.name-color"
    case ChatSendAsPlayer => "chat.send-as-player"
    case DiscordEnabled => "discord.enabled"
    case DiscordWebhookUrl => "discord.webhook-url"
    case DiscordUsername => "discord.username"
    case DiscordAvatarUrl => "discord.avatar-url"
    case PromptSystem => "prompt.system"
  }

  /**
   * A configuration: the settings it contains, with their values. Besides the
   * file on disk there is the config.yml shipped in the plugin jar, which
   * `saveDefaultConfig` and `reloadConfig` install as the file's defaults; it
   * is called `bundled` below.
   */
  type ConfigFile = map<Key, Value>

  /**
   * Bukkit's `contains(path)`: the setting is in the file or, failing that,
   * in the bundled defaults.
   */
  predicate HasSetting(f: ConfigFile, bundled: ConfigFile, key: Key)
  {
    key in f || key in bundled
  }

  /**
   * Bukkit's `getString(path, def)`: the default only when the setting is
   * missing; any other value reads as its `toString`, a list as `[a, b]`.
   * Like every getter given an explicit default, it does not consult the
   * bundled defaults.
   */
  function GetString(f: ConfigFile, key: Key, default: string): (r: string)
    ensures key !in f ==> r == default
    ensures key in f && f[key].Text? ==> r == f[key].s
    ensures key in f && f[key].Whole? ==> r == IntString(f[key].i)
  {
    if key !in f then default
    else
      match f[key]
      case Text(s) => s
      case Number(_, shown) => shown
      case Whole(i) => IntString(i)
      case Flag(b) => if b then "true" else "false"
      case Texts(items) => "[" + Join(items, ", ") + "]"
  }

  /** Bukkit's `getDouble(path, def)`: a number, a whole one too, as a double; anything else is the default. */
  function GetDouble(f: ConfigFile, key: Key, default: real): (r: real)
    ensures key in f && f[key].Number? ==> r == f[key].r
    ensures key in f && f[key].Whole? ==> r == f[key].i as real
    ensures !(key in f && (f[key].Number? || f[key].Whole?)) ==> r == default
  {
    if key in f && f[key].Number? then f[key].r
    else if key in f && f[key].Whole? then f[key].i as real
    else default
  }

  const IntMin: int := -0x8000_0000
  const IntMax: int := 0x7FFF_FFFF

  /** Java `Number.intValue` of a whole number: its low 32 bits, two's complement. */
  function IntValue(i: int): (r: int)
    ensures IntMin <= r <= IntMax
    ensures IntMin <= i <= IntMax ==> r == i
    ensures (r - i) % 0x1_0000_0000 == 0
  {
    var low := i % 0x1_0000_0000;
    if low > IntMax then low - 0x1_0000_0000 else low
  }

  /** Java's `(int)` cast of a double: truncation toward zero, saturating at the `int` range. */
  function DoubleIntValue(r: real): (n: int)
    ensures IntMin <= n <= IntMax
    ensures 0.0 <= r < (IntMax + 1) as real ==> n as real <= r < (n + 1) as real
    ensures (IntMin - 1) as real < r <= 0.0 ==> (n - 1) as real < r <= n as real
    ensures r >= (IntMax + 1) as real ==> n == IntMax
    ensures r <= (IntMin - 1) as real ==> n == IntMin
  {
    var t := if r >= 0.0 then r.Floor else -((-r).Floor);
    if t > IntMax then IntMax else if t < IntMin then IntMin else t
  }

  /** Bukkit's `getInt(path, def)`: any number reads through `intValue`; anything else is the default. */
  function GetInt(f: ConfigFile, key: Key, default: int): (r: int)
    ensures key in f && (f[key].Whole? || f[key].Number?) ==> IntMin <= r <= IntMax
    ensures !(key in f && (f[key].Whole? || f[key].Number?)) ==> r == default
  {
    if key in f && f[key].Whole? then IntValue(f[key].i)
    else if key in f && f[key].Number? then DoubleIntValue(f[key].r)
    else default
  }

  /** Bukkit's `getBoolean(path, def)`: a boolean setting, or the default for anything else. */
  function GetBoolean(f: ConfigFile, key: Key, default: bool): (r: bool)
    ensures key in f && f[key].Flag? ==> r == f[key].b
    ensures !(key in f && f[key].Flag?) ==> r == default
  {
    if key in f && f[key].Flag? then f[key].b else default
  }

  /**
   * Bukkit's `getStringList(path)`: the file's list of strings; when the file
   * has no list there, the bundled list; otherwise an empty list.
   */
  function GetStringList(f: ConfigFile, bundled: ConfigFile, key: Key): (r: seq<string>)
    ensures key in f && f[key].Texts? ==> r == f[key].items
    ensures !(key in f && f[key].Texts?) && key in bundled && bundled[key].Texts? ==> r == bundled[key].items
    ensures !(key in f && f[key].Texts?) && !(key in bundled && bundled[key].Texts?) ==> r == []
  {
    if key in f && f[key].Texts? then f[key].items
    else if key in bundled && bundled[key].Texts? then bundled[key].items
    else []
  }

  const DefaultSystemPrompt := "Ты" + " — Псич. говорящий кот." + " Ты циничный, умный, но свой в доску."

  /** `removeIf(String::isEmpty)`: the keys that are not empty, in their order. */
  function DropEmpty(keys: seq<string>): (r: seq<string>)
    ensures |r| <= |keys|
    ensures forall k | 0 <= k < |r| :: r[k] != []
  {
    if keys == [] then []
    else (if keys[0] == [] then [] else [keys[0]]) + DropEmpty(keys[1..])
  }

  /** A key is kept exactly when it was there and is not empty; the order is kept. */
  lemma {:induction false} DropEmptyKeeps(keys: seq<string>, key: string)
    ensures key in DropEmpty(keys) <==> key in keys && key != []
    ensures (forall k | 0 <= k < |keys| :: keys[k] != []) ==> DropEmpty(keys) == keys
  {
    if keys != [] {
      DropEmptyKeeps(keys[1..], key);
      assert keys == [keys[0]] + keys[1..];
    }
  }

  /** The four spontaneous reply chances. */
  datatype Chances = Chances(message: real, joinQuit: real, advancement: real, death: real)

  /**
   * The chances: each from its own key, unless the configuration contains the
   * legacy key and no message key (the bundled defaults count for both), in
   * which case the file's legacy value applies to all four.
   */
  function ChancesOf(f: ConfigFile, bundled: ConfigFile): Chances
  {
    if HasSetting(f, bundled, ChatSpontaneousChance) && !HasSetting(f, bundled, ChatSpontaneousChanceMessage) then
      var legacy := GetDouble(f, ChatSpontaneousChance, 0.05);
      Chances(legacy, legacy, legacy, legacy)
    else
      Chances(GetDouble(f, ChatSpontaneousChanceMessage, 0.05),
              GetDouble(f, ChatSpontaneousChanceJoinQuit, 0.1),
              GetDouble(f, ChatSpontaneousChanceAdvancement, 0.1),
              GetDouble(f, ChatSpontaneousChanceDeath, 0.1))
  }

  lemma DefaultPromptNotBlank()
    ensures !IsBlank(DefaultSystemPrompt)
  {
    assert DefaultSystemPrompt[0] == "Ты"[0] == 'Т';
  }

  /** A blank system prompt falls back to the default persona. */
  function SystemPromptOf(f: ConfigFile): (p: string)
    ensures !IsBlank(p)
  {
    var p := GetString(f, PromptSystem, "");
    if IsBlank(p) then
      DefaultPromptNotBlank();
      DefaultSystemPrompt
    else p
  }

  /**
   * `switch (color)`: the letter of the code of a known colour name. Every
   * such letter is a colour (not a formatting) code, so colour-code removal
   * recognises it.
   */
  function NamedColor(color: string): (r: Option<char>)
    ensures r.Some? ==> ('0' <= r.value <= '9' || 'a' <= r.value <= 'f') && IsFormatCode(r.value)
  {
    match color
    case "black" => Some('0')
    case "dark_blue" => Some('1')
    case "dark_green" => Some('2')
    case "dark_aqua" => Some('3')
    case "dark_cyan" => Some('3')
    case "dark_red" => Some('4')
    case "dark_purple" => Some('5')
    case "dark_magenta" => Some('5')
    case "gold" => Some('6')
    case "orange" => Some('6')
    case "gray" => Some('7')
    case "grey" => Some('7')
    case "dark_gray" => Some('8')
    case "dark_grey" => Some('8')
    case "blue" => Some('9')
    case "green" => Some('a')
    case "aqua" => Some('b')
    case "cyan" => Some('b')
    case "red" => Some('c')
    case "light_purple" => Some('d')
    case "magenta" => Some('d')
    case "pink" => Some('d')
    case "yellow" => Some('e')
    case "white" => Some('f')
    case _ => None
  }

  /**
   * Aliases share a code: grey and gray, cyan and aqua, pink, magenta and
   * light purple; names outside the switch, and names not in lower case, are unknown.
   */
  lemma ColorAliases()
    ensures NamedColor("gray") == NamedColor("grey") == Some('7')
    ensures NamedColor("aqua") == NamedColor("cyan") == Some('b')
    ensures NamedColor("pink") == NamedColor("magenta") == NamedColor("light_purple") == Some('d')
    ensures NamedColor("purple") == None && NamedColor("Red") == None
  {
  }

  /** The code of a colour letter: the section sign, then the letter. */
  function Code(letter: char): (code: string)
    ensures |code| == 2 && code[0] == '§' && code[1] == letter
  {
    ['§', letter]
  }

  const DefaultColor := Code('e')

  /** What the unguarded `substring` throws. */
  datatype Thrown = StringIndexOutOfBounds

  /**
   * `getNameColorCode` as written: blank gives yellow; a value that starts
   * with a section sign once trimmed gives the first two characters of the
   * raw, untrimmed value (an exception when it has fewer than two); a name
   * is looked up ignoring case; anything else gives yellow.
   */
  function NameColorCodeAsWritten(nameColor: Option<string>): (r: Result<string, Thrown>)
    ensures r.Ok? ==> |r.value| == 2
    ensures r.Err? ==> nameColor.Some? && |nameColor.value| == 1 && nameColor.value[0] == '§'
  {
    if nameColor.None? || IsBlank(nameColor.value) then Ok(DefaultColor)
    else
      var color := ToLower(JavaTrim(nameColor.value));
      if StartsWith(color, "§") then
        if |nameColor.value| < 2 then
          LoneSignOnly(nameColor.value);
          Err(StringIndexOutOfBounds)
        else Ok(nameColor.value[..2])
      else Ok(Code(NamedColor(color).GetOr('e')))
  }

  /** Only a value that is a lone section sign reaches the `substring` with fewer than two characters. */
  lemma LoneSignOnly(v: string)
    requires !IsBlank(v) && StartsWith(ToLower(JavaTrim(v)), "§") && |v| < 2
    ensures |v| == 1 && v[0] == '§'
  {
    assert |v| == 1 && !IsJavaSpace(v[0]);
    LoneSign(v);
  }

  /** A one-character value that trims and lower-cases to a section sign is one. */
  lemma LoneSign(v: string)
    requires |v| == 1 && !IsJavaSpace(v[0])
    requires StartsWith(ToLower(JavaTrim(v)), "§")
    ensures v[0] == '§'
  {
    assert JavaTrim(v) == v by {
      JavaTrimPadded("", v, "");
      assert "" + v + "" == v;
    }
    SectionSignLowered(v);
  }

  /**
   * A code written after leading spaces gives the first two spaces, which is
   * not a colour code at all.
   */
  lemma ColorCodeOfRawValue(pad: string, letter: char)
    requires |pad| >= 2 && IsBlank(pad) && !IsJavaSpace(letter)
    ensures NameColorCodeAsWritten(Some(pad + ['§', letter])) == Ok(pad[..2])
    ensures pad[..2][0] != '§'
  {
    var code := ['§', letter];
    var raw := pad + code;
    assert raw[..2] == pad[..2];
    assert raw[|pad|] == '§';
    assert JavaTrim(raw) == code by {
      JavaTrimPadded(pad, code, "");
      assert pad + code + "" == raw;
    }
    assert StartsWith(ToLower(JavaTrim(raw)), "§") by {
      SectionSignFirst(code);
    }
  }

  /** A lone section sign makes `substring(0, 2)` throw. */
  lemma LoneSectionSignThrows(lone: string)
    requires |lone| == 1 && lone[0] == '§'
    ensures NameColorCodeAsWritten(Some(lone)).Err?
  {
    assert JavaTrim(lone) == lone by {
      JavaTrimPadded("", lone, "");
      assert "" + lone + "" == lone;
    }
    assert StartsWith(ToLower(JavaTrim(lone)), "§") by {
      SectionSignFirst(lone);
    }
  }

  /** The corrected reading gives yellow for a lone section sign. */
  lemma LoneSectionSignYellow(lone: string)
    requires |lone| == 1 && lone[0] == '§'
    ensures NameColorCode(Some(lone)) == DefaultColor
  {
    assert JavaTrim(lone) == lone by {
      JavaTrimPadded("", lone, "");
      assert "" + lone + "" == lone;
    }
    SectionSignFirst(lone);
  }

  /** Lower-casing keeps a leading section sign. */
  lemma SectionSignFirst(s: string)
    requires s != [] && s[0] == '§'
    ensures StartsWith(ToLower(s), "§")
  {
    assert ToLower(s)[..1] == "§";
  }

  /**
   * The name colour as a code, taking a direct code from the trimmed value:
   * its first two characters, or yellow when the code letter is missing.
   */
  function NameColorCode(nameColor: Option<string>): (code: string)
    ensures |code| == 2 && code[0] == '§'
  {
    if nameColor.None? || IsBlank(nameColor.value) then DefaultColor
    else TrimmedColorCode(JavaTrim(nameColor.value))
  }

  /** The code of a trimmed, non-blank colour setting. */
  function TrimmedColorCode(trimmed: string): (code: string)
    ensures |code| == 2 && code[0] == '§'
  {
    var color := ToLower(trimmed);
    if StartsWith(color, "§") then
      if |trimmed| < 2 then DefaultColor else Code(trimmed[1])
    else Code(NamedColor(color).GetOr('e'))
  }

  /** Where the raw value needs no trimming, both readings agree on a direct code. */
  lemma DirectCodeAgrees(nameColor: string)
    requires |nameColor| >= 2 && nameColor[0] == '§' && !IsJavaSpace(nameColor[|nameColor| - 1])
    ensures NameColorCodeAsWritten(Some(nameColor)) == Ok(NameColorCode(Some(nameColor)))
  {
    assert JavaTrim(nameColor) == nameColor by {
      JavaTrimPadded("", nameColor, "");
      assert "" + nameColor + "" == nameColor;
    }
    assert !IsBlank(nameColor) by {
      assert !IsJavaSpace(nameColor[0]);
    }
    SectionSignFirst(nameColor);
    var code := nameColor[..2];
    assert code == [code[0], code[1]];
    assert code == Code(nameColor[1]);
    assert NameColorCodeAsWritten(Some(nameColor)) == Ok(code);
    assert NameColorCode(Some(nameColor)) == Code(nameColor[1]) by {
      assert NameColorCode(Some(nameColor)) == TrimmedColorCode(nameColor);
    }
  }

  /** Both readings agree on every value that does not start with a section sign once trimmed. */
  lemma NamedColorAgrees(nameColor: string)
    requires nameColor != [] && !IsJavaSpace(nameColor[0]) && !IsJavaSpace(nameColor[|nameColor| - 1])
    requires nameColor[0] != '§'
    ensures NameColorCodeAsWritten(Some(nameColor)) == Ok(NameColorCode(Some(nameColor)))
  {
    assert JavaTrim(nameColor) == nameColor by {
      JavaTrimPadded("", nameColor, "");
      assert "" + nameColor + "" == nameColor;
    }
    if StartsWith(ToLower(nameColor), "§") {
      SectionSignLowered(nameColor);
    }
  }

  /** Only a section sign lower-cases to a section sign. */
  lemma SectionSignLowered(s: string)
    requires StartsWith(ToLower(s), "§")
    ensures s[0] == '§'
  {
    assert ToLower(s)[..1][0] == LowerChar(s[0]);
  }

  /**
   * The lookup ignores letter case: two spellings of a name that differ only
   * in case give the same code. (A direct code keeps the case of its letter,
   * so it is excluded.)
   */
  lemma NameCaseInsensitive(a: string, b: string)
    requires EqualsIgnoreCase(a, b) && (a == [] || a[0] != '§')
    ensures TrimmedColorCode(a) == TrimmedColorCode(b)
  {
    assert ToLower(a) == ToLower(b);
    assert a != [] ==> ToLower(a)[0] != '§';
  }

  /** The three API key lists. */
  datatype ApiKeys = ApiKeys(gemini: seq<string>, groq: seq<string>, deepseek: seq<string>)

  /** The `chat.*` settings. */
  datatype ChatSettings = ChatSettings(
    trigger: string, chances: Chances, contextSize: int, minMessageLength: int,
    botName: string, nameColor: string, sendAsPlayer: bool)

  /** The `discord.*` settings. */
  datatype DiscordSettings = DiscordSettings(enabled: bool, webhookUrl: string, username: string, avatarUrl: string)

  /** The key lists `loadConfig` keeps: those of the file without the empty keys. */
  function KeysOf(f: ConfigFile, bundled: ConfigFile): ApiKeys
  {
    ApiKeys(DropEmpty(GetStringList(f, bundled, AiGeminiKeys)), DropEmpty(GetStringList(f, bundled, AiGroqKeys)),
            DropEmpty(GetStringList(f, bundled, AiDeepseekKeys)))
  }

  /** The chat settings of the file, each with its default. */
  function ChatOf(f: ConfigFile, bundled: ConfigFile): ChatSettings
  {
    ChatSettings(GetString(f, ChatTrigger, "псич"), ChancesOf(f, bundled),
                 GetInt(f, ChatContextSize, 20), GetInt(f, ChatMinMessageLength, 10),
                 GetString(f, ChatBotName, "Псич"), GetString(f, ChatNameColor, "yellow"),
                 GetBoolean(f, ChatSendAsPlayer, false))
  }

  /** The Discord settings of the file, each with its default. */
  function DiscordOf(f: ConfigFile): DiscordSettings
  {
    DiscordSettings(GetBoolean(f, DiscordEnabled, true), GetString(f, DiscordWebhookUrl, ""),
                    GetString(f, DiscordUsername, "Псич"), GetString(f, DiscordAvatarUrl, ""))
  }

  /**
   * The configuration as `loadConfig` leaves it. The fields of the plugin's
   * class are grouped here by section of the file.
   */
  class ConfigManager {
    var keys: ApiKeys
    var chat: ChatSettings
    var discord: DiscordSettings
    var systemPrompt: string

    /** What `loadConfig` guarantees whatever the file says: no empty key, a persona. */
    predicate Valid()
      reads this
    {
      (forall k | 0 <= k < |keys.gemini| :: keys.gemini[k] != [])
      && (forall k | 0 <= k < |keys.groq| :: keys.groq[k] != [])
      && (forall k | 0 <= k < |keys.deepseek| :: keys.deepseek[k] != [])
      && !IsBlank(systemPrompt)
    }

    /** The settings read from `f` over the bundled defaults, as the fields hold them after loading. */
    predicate LoadedFrom(f: ConfigFile, bundled: ConfigFile)
      reads this
    {
      keys == KeysOf(f, bundled) && chat == ChatOf(f, bundled) && discord == DiscordOf(f)
      && systemPrompt == SystemPromptOf(f)
    }

    constructor (f: ConfigFile, bundled: ConfigFile)
      ensures LoadedFrom(f, bundled) && Valid()
    {
      new;
      LoadConfig(f, bundled);
    }

    /** `loadConfig` (and `reload`, which runs it on the re-read file). */
    method LoadConfig(f: ConfigFile, bundled: ConfigFile)
      modifies this
      ensures LoadedFrom(f, bundled) && Valid()
    {
      keys := ApiKeys(GetStringList(f, bundled, AiGeminiKeys), GetStringList(f, bundled, AiGroqKeys),
                      GetStringList(f, bundled, AiDeepseekKeys));
      var message := GetDouble(f, ChatSpontaneousChanceMessage, 0.05);
      var joinQuit := GetDouble(f, ChatSpontaneousChanceJoinQuit, 0.1);
      var advancement := GetDouble(f, ChatSpontaneousChanceAdvancement, 0.1);
      var death := GetDouble(f, ChatSpontaneousChanceDeath, 0.1);
      if HasSetting(f, bundled, ChatSpontaneousChance) && !HasSetting(f, bundled, ChatSpontaneousChanceMessage) {
        var legacy := GetDouble(f, ChatSpontaneousChance, 0.05);
        message, joinQuit, advancement, death := legacy, legacy, legacy, legacy;
      }
      chat := ChatSettings(GetString(f, ChatTrigger, "псич"), Chances(message, joinQuit, advancement, death),
                           GetInt(f, ChatContextSize, 20), GetInt(f, ChatMinMessageLength, 10),
                           GetString(f, ChatBotName, "Псич"), GetString(f, ChatNameColor, "yellow"),
                           GetBoolean(f, ChatSendAsPlayer, false));
      discord := DiscordSettings(GetBoolean(f, DiscordEnabled, true), GetString(f, DiscordWebhookUrl, ""),
                                 GetString(f, DiscordUsername, "Псич"), GetString(f, DiscordAvatarUrl, ""));
      systemPrompt := GetString(f, PromptSystem, "");
      if IsBlank(systemPrompt) {
        DefaultPromptNotBlank();
        systemPrompt := DefaultSystemPrompt;
      }
      keys := ApiKeys(DropEmpty(keys.gemini), DropEmpty(keys.groq), DropEmpty(keys.deepseek));
    }

    /**
     * `getNameColorCode` on the loaded colour, as written: two characters,
     * or the exception of a lone section sign.
     */
    function NameColor(): (code: Result<string, Thrown>)
      reads this
      ensures code.Ok? ==> |code.value| == 2
      ensures code.Err? <==> |chat.nameColor| == 1 && chat.nameColor[0] == '§'
    {
      if |chat.nameColor| == 1 && chat.nameColor[0] == '§' then
        LoneSectionSignThrows(chat.nameColor);
        NameColorCodeAsWritten(Some(chat.nameColor))
      else
        NameColorCodeAsWritten(Some(chat.nameColor))
    }
  }

  /**
   * An empty file gives the documented defaults, except that the key lists are
   * the bundled ones and that a bundled legacy chance key without a bundled
   * message key sets all four chances to the legacy default 0.05.
   */
  lemma EmptyFileDefaults(c: ConfigManager, bundled: ConfigFile)
    requires c.LoadedFrom(map[], bundled)
    ensures c.chat.trigger == "псич" && c.chat.contextSize == 20 && c.chat.minMessageLength == 10
    ensures c.chat.botName == "Псич" && c.chat.nameColor == "yellow" && !c.chat.sendAsPlayer
    ensures c.chat.chances
         == if ChatSpontaneousChance in bundled && ChatSpontaneousChanceMessage !in bundled
            then Chances(0.05, 0.05, 0.05, 0.05) else Chances(0.05, 0.1, 0.1, 0.1)
    ensures c.discord == DiscordSettings(true, "", "Псич", "")
    ensures c.systemPrompt == DefaultSystemPrompt
    ensures c.keys.gemini
         == DropEmpty(if AiGeminiKeys in bundled && bundled[AiGeminiKeys].Texts? then bundled[AiGeminiKeys].items else [])
    ensures bundled == map[] ==> c.keys == ApiKeys([], [], [])
  {
  }

  /**
   * The legacy key overrides all four chances exactly when the configuration,
   * the bundled defaults included, contains it and no message key; with a
   * message key, each chance keeps its own key.
   */
  lemma LegacyChanceOverrides(f: ConfigFile, bundled: ConfigFile)
    ensures HasSetting(f, bundled, ChatSpontaneousChance) && !HasSetting(f, bundled, ChatSpontaneousChanceMessage) ==>
      var legacy := GetDouble(f, ChatSpontaneousChance, 0.05);
      ChancesOf(f, bundled) == Chances(legacy, legacy, legacy, legacy)
    ensures HasSetting(f, bundled, ChatSpontaneousChanceMessage) ==>
      ChancesOf(f, bundled).message == GetDouble(f, ChatSpontaneousChanceMessage, 0.05)
      && ChancesOf(f, bundled).death == GetDouble(f, ChatSpontaneousChanceDeath, 0.1)
  {
  }

  /**
   * A message key in the bundled defaults disables the override: a file with
   * only the legacy key keeps the four default chances.
   */
  lemma BundledMessageKeyBlocksLegacy(legacy: real, shown: string, bundled: ConfigFile)
    requires ChatSpontaneousChanceMessage in bundled
    ensures ChancesOf(map[ChatSpontaneousChance := Number(legacy, shown)], bundled) == Chances(0.05, 0.1, 0.1, 0.1)
  {
  }
}
