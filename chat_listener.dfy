/**
 * The Minecraft chat listener: which chat messages the bot reacts to, how a
 * reply is produced and split into chat lines, and what it writes to the
 * conversation store. The asynchronous tasks run here one after the other.
 */
module ChatListener {
  import opened Wrappers
  import opened Text
  import opened Storage
  import opened Delivery
  import opened JavaProviders

  /** Minecraft has one chat, stored under this id. */
  const GlobalChat := "global"
  const BotName := "Псич"
  const Greeting := "Псич, привет! Что нужно?"
  /** Messages shown to `shouldAnswer` when judging a spontaneous reply. */
  const JudgeWindow: nat := 15
  /** Messages shown to the profile analysis after a reply. */
  const AnalysisWindow: nat := 5

  /**
   * A line of the bot itself coming back: after removing colour codes it
   * starts with `[name]` or `<name>`.
   */
  predicate IsEcho(message: string, name: string)
  {
    IsEchoText(StripColorCodes(message), name)
  }

  predicate IsEchoText(clean: string, name: string)
  {
    StartsWith(clean, "[" + name + "]") || StartsWith(clean, "<" + name + ">")
  }

  /** A colour code, then text without section signs: stripping removes just the code. */
  lemma StripAfterCode(code: char, tag: string, rest: string)
    requires IsFormatCode(code)
    requires forall k | 0 <= k < |tag| :: tag[k] != '§'
    ensures StripColorCodes(['§', code] + tag + rest) == tag + StripColorCodes(rest)
  {
    var line := ['§', code] + tag + rest;
    assert line[2..] == tag + rest;
    StripPlainPrefix(tag, rest);
  }

  /** A text behind the bot's tag starts like an echo. */
  lemma TaggedIsEcho(sendAsPlayer: bool, rest: string)
    ensures IsEchoText(PsichTag(sendAsPlayer) + rest, BotName)
  {
    var clean := PsichTag(sendAsPlayer) + rest;
    assert clean[..6] == PsichTag(sendAsPlayer)[..6];
  }

  /** Every line the bot broadcasts, of either part, is recognised as its own. */
  lemma OwnLineIsEcho(code: char, sendAsPlayer: bool, partNumber: nat, part: string)
    requires IsFormatCode(code)
    ensures IsEcho(PsichLine(['§', code], sendAsPlayer, partNumber, part), BotName)
  {
    var tag := PsichTag(sendAsPlayer);
    var rest := (if partNumber == 1 then "\U{A7}f" else "\U{A7}7(продолжение) \U{A7}f") + part;
    assert PsichLine(['§', code], sendAsPlayer, partNumber, part) == ['§', code] + tag + rest;
    assert forall k | 0 <= k < |tag| :: tag[k] != '§';
    StripAfterCode(code, tag, rest);
    TaggedIsEcho(sendAsPlayer, StripColorCodes(rest));
  }

  /** `requiresSearch`: a direct call whose lower-cased text asks to find something. */
  predicate WantsSearch(message: string)
  {
    Contains(ToLower(message), "найди") || Contains(ToLower(message), "поищи")
  }

  /** The search keywords are found whatever their letter case: texts equal ignoring case ask alike. */
  lemma SearchIgnoresCase(message: string, other: string)
    requires EqualsIgnoreCase(message, other)
    ensures WantsSearch(message) <==> WantsSearch(other)
    ensures WantsSearch("Псич, НАЙДИ рецепт")
  {
    assert ToLower(message) == ToLower(other);
    var m := ToLower("Псич, НАЙДИ рецепт");
    assert m[6..11] == "найди";
    assert OccursAt(m, "найди", 6);
  }

  /**
   * The message handed to the reply generator: a message that is, after
   * trimming and ignoring case, only the trigger word or "psych" becomes the
   * greeting; any other message is passed on unchanged.
   */
  function Substituted(message: string, trigger: string, greeting: string): (r: string)
    ensures r == message || r == greeting
    ensures EqualsIgnoreCase(JavaTrim(message), trigger) || EqualsIgnoreCase(JavaTrim(message), "psych")
            ==> r == greeting
    ensures !EqualsIgnoreCase(JavaTrim(message), trigger) && !EqualsIgnoreCase(JavaTrim(message), "psych")
            ==> r == message
  {
    var t := JavaTrim(message);
    if EqualsIgnoreCase(t, trigger) || EqualsIgnoreCase(t, "psych") then greeting else message
  }

  /**
   * A word equal to the trigger or to "psych" in any letter case, with
   * whitespace around it, is greeted.
   */
  lemma BareTriggerGreets(trigger: string, greeting: string, before: string, word: string, after: string)
    requires EqualsIgnoreCase(word, trigger) || EqualsIgnoreCase(word, "psych")
    requires word != [] && !IsJavaSpace(word[0]) && !IsJavaSpace(word[|word| - 1])
    requires IsBlank(before) && IsBlank(after)
    ensures Substituted(before + word + after, trigger, greeting) == greeting
  {
    JavaTrimPadded(before, word, after);
  }

  /** What a chat message leads to, once it has been stored. */
  datatype Reaction =
    | Ignored              // empty or blank: nothing at all
    | Echo                 // the bot's own line: stored under the bot's name only
    | Silenced             // stored, but the chat is muted
    | Direct(search: bool) // the trigger was found: reply, searching the web or not
    | Judge(block: string) // no trigger, long enough and lucky: ask whether to reply, showing `block`
    | Quiet                // no trigger and no spontaneous reply

  /**
   * `onPlayerChat` decisions. `hasTrigger` is the trigger regular expression's
   * verdict on the lower-cased text, `roll` the chance draw, `stored` the
   * chat history once the message has been added.
   */
  function React(message: string, hasTrigger: bool, muted: bool, minLength: int, roll: bool,
                 stored: seq<ChatMessage>): Reaction
  {
    if IsBlank(message) then Ignored
    else if IsEcho(message, BotName) then Echo
    else if muted then Silenced
    else if hasTrigger then Direct(WantsSearch(message))
    else if |message| >= minLength && roll then Judge(HistoryBlock(Window(stored, JudgeWindow)))
    else Quiet
  }

  /**
   * Only a direct call can search, and a spontaneous reply is judged on at
   * most 15 messages; the bot's own lines never lead to a reply.
   */
  lemma ReactionRules(message: string, hasTrigger: bool, muted: bool, minLength: int, roll: bool,
                      stored: seq<ChatMessage>)
    ensures React(message, hasTrigger, muted, minLength, roll, stored) == Direct(true)
            <==> !IsBlank(message) && !IsEcho(message, BotName) && !muted && hasTrigger && WantsSearch(message)
    ensures React(message, hasTrigger, muted, minLength, roll, stored).Judge?
            ==> !hasTrigger && |message| >= minLength && roll
    ensures IsEcho(message, BotName) ==> React(message, hasTrigger, muted, minLength, roll, stored) in {Ignored, Echo}
  {
  }

  /**
   * `onPlayerChat` up to the asynchronous tasks it starts: a blank message is
   * dropped; the bot's own line is stored under the bot's name; any other
   * message is stored and its author tracked before the mute check.
   */
  method OnPlayerChat(store: StorageService, message: string, playerName: string, playerId: string,
                      hasTrigger: bool, minLength: int, roll: bool, contextSize: int)
    returns (reaction: Reaction)
    modifies store
    ensures var c := ChatOrNew(old(store.chats), GlobalChat);
      reaction == React(message, hasTrigger, old(store.IsMuted(GlobalChat)), minLength, roll,
                        Appended(c.history, ChatMessage(playerName, message), contextSize))
    ensures IsBlank(message) ==> store.chats == old(store.chats)
    ensures !IsBlank(message) && IsEcho(message, BotName) ==>
      store.State() == AddMessage(old(store.State()), GlobalChat, ChatMessage(BotName, message), contextSize)
    ensures !IsBlank(message) && !IsEcho(message, BotName) ==>
      var c := ChatOrNew(old(store.chats), GlobalChat);
      store.chats == old(store.chats)[GlobalChat := c.(history := Appended(c.history, ChatMessage(playerName, message), contextSize),
                                                       users := c.users[playerId := playerName])]
    ensures store.mutedChats == old(store.mutedChats) && store.profiles == old(store.profiles)
  {
    if IsBlank(message) {
      return Ignored;
    }
    if IsEcho(message, BotName) {
      store.AddToHistory(GlobalChat, BotName, message, contextSize);
      return Echo;
    }
    ghost var c := ChatOrNew(store.chats, GlobalChat);
    ghost var stored := c.(history := Appended(c.history, ChatMessage(playerName, message), contextSize));
    store.AddToHistory(GlobalChat, playerName, message, contextSize);
    assert store.chats == old(store.chats)[GlobalChat := stored];
    assert ChatOrNew(store.chats, GlobalChat) == stored;
    store.TrackUser(GlobalChat, playerId, playerName);
    assert store.chats == old(store.chats)[GlobalChat := stored.(users := stored.users[playerId := playerName])];
    ghost var after := store.chats;
    if store.IsMuted(GlobalChat) {
      return Silenced;
    }
    if hasTrigger {
      return Direct(WantsSearch(message));
    }
    if |message| >= minLength && roll {
      var history := store.GetHistory(GlobalChat);
      assert history == stored.history;
      assert store.chats == after;
      return Judge(HistoryBlock(Window(history, JudgeWindow)));
    }
    return Quiet;
  }

  /** Appearance of the bot's lines: name colour, player or console tag, Discord mirroring. */
  datatype Look = Look(colorCode: string, sendAsPlayer: bool, mirror: bool)

  /** The lines broadcast to the game and the texts posted to the Discord webhook. */
  datatype Sent = Sent(lines: seq<string>, mirrored: seq<string>)

  /** The line of a part of a reply, as `sendMessageParts` formats it. */
  function LineFormat(look: Look): (nat, string) -> string
  {
    (partNumber: nat, part: string) => PsichLine(look.colorCode, look.sendAsPlayer, partNumber, part)
  }

  /**
   * `sendMessageParts(chatId, full, start, partNumber)` and the chain of
   * delayed calls it schedules: the lines of `ChainParts` in the format
   * `render`, then one history entry with the full reply. (Each line also
   * goes to the Discord webhook as its `MirrorText`; `ProcessMessage` lists
   * those.)
   */
  method SendMessageParts(store: StorageService, chatId: string, full: string, start: nat, partNumber: nat,
                          render: (nat, string) -> string, contextSize: int) returns (lines: seq<string>)
    modifies store
    ensures lines == Numbered(render, ChainParts(full, start, partNumber), partNumber)
    ensures store.State() == AddMessage(old(store.State()), chatId, ChatMessage(BotName, full), contextSize)
    ensures store.profiles == old(store.profiles)
    decreases if partNumber <= MaxParts then MaxParts + 1 - partNumber else 0
  {
    if partNumber > MaxParts || start >= |full| {
      ChainLinesDone(render, full, start, partNumber);
      store.AddToHistory(chatId, BotName, full, contextSize);
      return [];
    }
    var remaining := full[start..];
    var n := PartLength(remaining);
    var part := remaining[..n];
    if start + n < |full| && partNumber < MaxParts {
      ChainLinesStep(render, full, start, partNumber);
      var rest := SendMessageParts(store, chatId, full, start + n, partNumber + 1, render, contextSize);
      lines := [render(partNumber, part)] + rest;
    } else {
      ChainLinesLast(render, full, start, partNumber);
      store.AddToHistory(chatId, BotName, full, contextSize);
      lines := [render(partNumber, part)];
    }
  }

  /** The line broadcast when producing a reply failed. */
  function ApologyLine(look: Look): string
  {
    look.colorCode + (if look.sendAsPlayer then "<Псич>" else "[Псич]")
    + " \U{A7}7У меня шестеренки встали. Какая-то дичь в коде"
  }

  /** A reply goes out as at most two lines, each carrying at most 250 characters of it. */
  lemma ReplyLinesBounded(look: Look, full: string)
    ensures |Numbered(LineFormat(look), ChainParts(full, 0, 1), 1)| <= MaxParts
    ensures forall k | 0 <= k < |ChainParts(full, 0, 1)| :: |ChainParts(full, 0, 1)[k]| <= MaxPartLength
    ensures full != [] ==> |Numbered(LineFormat(look), ChainParts(full, 0, 1), 1)| >= 1
  {
    ChainPartsBounds(full, 0, 1);
  }

  /**
   * `processMessage`: read the author's profile and the history, substitute
   * the greeting for a bare trigger, ask for a reply (`getResponse`, whose
   * failure is the exception the method catches), send it in parts, then run
   * the profile analysis on the last five messages and store its result
   * unless it is null (`analyze` returns `None` for null or a failure).
   */
  method ProcessMessage(store: StorageService, chatId: string, playerId: string, playerName: string,
                        message: string, direct: bool, search: bool, trigger: string, look: Look, contextSize: int,
                        getResponse: (seq<ChatMessage>, string, string, UserProfile, bool, bool) -> Result<string, BotError>,
                        analyze: (string, UserProfile) -> Option<UserProfile>)
    returns (sent: Sent)
    modifies store
    ensures var profile := ProfileOrDefault(old(store.profiles), chatId, playerId);
      var history := ChatOrNew(old(store.chats), chatId).history;
      var reply := getResponse(history, Substituted(message, trigger, Greeting), playerName, profile, !direct, search);
      var analysed := analyze(HistoryBlock(Window(history, AnalysisWindow)), profile);
      var touched := Touch(old(store.State()), chatId);
      var stored := StoreProfile(old(store.profiles), chatId, playerId, profile);
      match reply
      case Err(_) =>
        sent == Sent([ApologyLine(look)], []) && store.State() == touched && store.profiles == stored
      case Ok(text) =>
        if IsBlank(text) then sent == Sent([], []) && store.State() == touched && store.profiles == stored
        else
          sent.lines == Numbered(LineFormat(look), ChainParts(text, 0, 1), 1) && sent.mirrored == Mirrors(look.mirror, BotName, sent.lines)
          && store.State() == AddMessage(touched, chatId, ChatMessage(BotName, text), contextSize)
          && store.profiles == (if analysed.Some? then StoreProfile(stored, chatId, playerId, analysed.value) else stored)
  {
    var profile := store.GetProfile(chatId, playerId);
    var history := store.GetHistory(chatId);
    var processed := Substituted(message, trigger, Greeting);
    var reply := getResponse(history, processed, playerName, profile, !direct, search);
    if reply.Err? {
      return Sent([ApologyLine(look)], []);
    }
    var text := reply.value;
    if IsBlank(text) {
      return Sent([], []);
    }
    var lines := SendMessageParts(store, chatId, text, 0, 1, LineFormat(look), contextSize);
    sent := Sent(lines, Mirrors(look.mirror, BotName, lines));
    var analysed := analyze(HistoryBlock(Window(history, AnalysisWindow)), profile);
    if analysed.Some? {
      store.UpdateProfile(chatId, playerId, analysed.value);
    }
  }
}
