/**
 * The DiscordSRV integration: messages written in the linked Discord channel
 * reach the bot as chat of the global conversation, under their author's name
 * and an id derived from it; replies go to the game chat with the configured
 * bot name, in at most two lines, and are mirrored back to Discord. The
 * asynchronous tasks run here one after the other.
 */
module DiscordSrv {
  import opened Wrappers
  import opened Text
  import opened Storage
  import opened Delivery
  import opened JavaProviders
  import opened ChatListener

  /** The author name used when DiscordSRV gives none. */
  const UnknownAuthor := "Discord"
  const IdPrefix := "discord-"

  /** The characters kept in a Discord user id: `[a-z0-9]`. */
  predicate IsIdChar(c: char)
  {
    'a' <= c <= 'z' || '0' <= c <= '9'
  }

  /** `replaceAll("[^a-z0-9]", "")`: the id characters of `s`, in order. */
  function KeepIdChars(s: string): (r: string)
    ensures |r| <= |s|
    ensures forall k | 0 <= k < |r| :: IsIdChar(r[k])
  {
    if s == [] then []
    else (if IsIdChar(s[0]) then [s[0]] else []) + KeepIdChars(s[1..])
  }

  /** A text made only of id characters is kept whole. */
  lemma {:induction false} KeepIdCharsOfIdText(s: string)
    requires forall k | 0 <= k < |s| :: IsIdChar(s[k])
    ensures KeepIdChars(s) == s
  {
    if s != [] {
      KeepIdCharsOfIdText(s[1..]);
    }
  }

  /** A text without id characters is dropped entirely. */
  lemma {:induction false} KeepIdCharsOfOtherText(s: string)
    requires forall k | 0 <= k < |s| :: !IsIdChar(s[k])
    ensures KeepIdChars(s) == []
  {
    if s != [] {
      KeepIdCharsOfOtherText(s[1..]);
    }
  }

  /** The user id of a Discord author: the prefix, then the lower-cased name's id characters. */
  function DiscordId(name: string): (id: string)
    ensures StartsWith(id, IdPrefix)
    ensures forall k | |IdPrefix| <= k < |id| :: IsIdChar(id[k])
  {
    var suffix := KeepIdChars(ToLower(name));
    assert (IdPrefix + suffix)[..|IdPrefix|] == IdPrefix;
    IdPrefix + suffix
  }

  /**
   * Names of lower-case Latin letters and digits keep their id; a name in
   * capitals shares the id of its lower-case form; names written only in
   * Cyrillic all get the bare prefix, so their authors share one id.
   */
  lemma DiscordIdCases(name: string)
    ensures (forall k | 0 <= k < |name| :: IsIdChar(name[k])) ==> DiscordId(name) == IdPrefix + name
    ensures DiscordId(ToUpper(name)) == DiscordId(name)
    ensures (forall k | 0 <= k < |name| :: '\U{430}' <= LowerChar(name[k]) <= '\U{44F}') ==> DiscordId(name) == IdPrefix
  {
    LowerOfUpper(name);
    if forall k | 0 <= k < |name| :: IsIdChar(name[k]) {
      assert ToLower(name) == name;
      KeepIdCharsOfIdText(name);
    }
    if forall k | 0 <= k < |name| :: '\U{430}' <= LowerChar(name[k]) <= '\U{44F}' {
      KeepIdCharsOfOtherText(ToLower(name));
    }
  }

  /**
   * `processDiscordMessage` decisions. The echo check looks at the message as
   * received; everything after it at the trimmed message. `hasTrigger` is the
   * trigger regular expression's verdict on the lower-cased trimmed text,
   * `roll` the chance draw, `stored` the history once the message is added.
   */
  function DiscordReact(message: string, botName: string, hasTrigger: bool, muted: bool, minLength: int, roll: bool,
                        stored: seq<ChatMessage>): Reaction
  {
    if IsBlank(message) then Ignored
    else if IsEcho(message, botName) then Echo
    else AuthorReaction(JavaTrim(message), hasTrigger, muted, minLength, roll, stored)
  }

  /** The decisions about a stored author's message `actual`, already trimmed. */
  function AuthorReaction(actual: string, hasTrigger: bool, muted: bool, minLength: int, roll: bool,
                          stored: seq<ChatMessage>): Reaction
  {
    if muted then Silenced
    else if hasTrigger then Direct(WantsSearch(actual))
    else if |actual| >= minLength && roll then Judge(HistoryBlock(Window(stored, JudgeWindow)))
    else Quiet
  }

  /**
   * Only a direct call searches; a spontaneous reply needs the trimmed text
   * to be long enough, so whitespace around a message never makes it count
   * as longer; the bot's own lines never lead to a reply.
   */
  lemma DiscordReactionRules(message: string, botName: string, hasTrigger: bool, muted: bool, minLength: int,
                             roll: bool, stored: seq<ChatMessage>)
    ensures DiscordReact(message, botName, hasTrigger, muted, minLength, roll, stored) == Direct(true)
            <==> !IsBlank(message) && !IsEcho(message, botName) && !muted && hasTrigger && WantsSearch(JavaTrim(message))
    ensures DiscordReact(message, botName, hasTrigger, muted, minLength, roll, stored).Judge?
            ==> !hasTrigger && |JavaTrim(message)| >= minLength && roll
    ensures IsEcho(message, botName) ==> DiscordReact(message, botName, hasTrigger, muted, minLength, roll, stored) in {Ignored, Echo}
  {
  }

  /**
   * `processDiscordMessage` up to the asynchronous tasks it starts: a blank
   * message is dropped; the bot's own line is stored as received under the
   * bot's name; any other message is stored trimmed under its author, whose
   * Discord id is tracked, before the mute check.
   */
  method OnDiscordMessage(store: StorageService, author: Option<string>, message: string, botName: string,
                          hasTrigger: bool, minLength: int, roll: bool, contextSize: int)
    returns (reaction: Reaction)
    modifies store
    ensures var c := ChatOrNew(old(store.chats), GlobalChat);
      reaction == DiscordReact(message, botName, hasTrigger, old(store.IsMuted(GlobalChat)), minLength, roll,
                               Appended(c.history, ChatMessage(author.GetOr(UnknownAuthor), JavaTrim(message)), contextSize))
    ensures IsBlank(message) ==> store.chats == old(store.chats)
    ensures !IsBlank(message) && IsEcho(message, botName) ==>
      store.State() == AddMessage(old(store.State()), GlobalChat, ChatMessage(botName, message), contextSize)
    ensures !IsBlank(message) && !IsEcho(message, botName) ==>
      var c := ChatOrNew(old(store.chats), GlobalChat);
      var name := author.GetOr(UnknownAuthor);
      store.chats == old(store.chats)[GlobalChat := c.(history := Appended(c.history, ChatMessage(name, JavaTrim(message)), contextSize),
                                                       users := c.users[DiscordId(name) := name])]
    ensures store.mutedChats == old(store.mutedChats) && store.profiles == old(store.profiles)
  {
    if IsBlank(message) {
      return Ignored;
    }
    if IsEcho(message, botName) {
      store.AddToHistory(GlobalChat, botName, message, contextSize);
      return Echo;
    }
    var playerName := author.GetOr(UnknownAuthor);
    var actual := JavaTrim(message);
    StoreAuthorMessage(store, playerName, actual, contextSize);
    reaction := DecideForAuthor(store, actual, hasTrigger, minLength, roll);
  }

  /** The mute check, the trigger and the spontaneous draw, once an author's message is stored. */
  method DecideForAuthor(store: StorageService, actual: string, hasTrigger: bool, minLength: int, roll: bool)
    returns (reaction: Reaction)
    modifies store
    ensures reaction == AuthorReaction(actual, hasTrigger, old(store.IsMuted(GlobalChat)), minLength, roll,
                                       ChatOrNew(old(store.chats), GlobalChat).history)
    ensures GlobalChat in old(store.chats) ==> store.chats == old(store.chats)
    ensures store.mutedChats == old(store.mutedChats) && store.profiles == old(store.profiles)
  {
    if store.IsMuted(GlobalChat) {
      return Silenced;
    }
    if hasTrigger {
      return Direct(WantsSearch(actual));
    }
    if |actual| >= minLength && roll {
      var history := store.GetHistory(GlobalChat);
      return Judge(HistoryBlock(Window(history, JudgeWindow)));
    }
    return Quiet;
  }

  /** Store an author's trimmed message and track the author under their Discord id. */
  method StoreAuthorMessage(store: StorageService, name: string, text: string, contextSize: int)
    modifies store
    ensures var c := ChatOrNew(old(store.chats), GlobalChat);
      store.chats == old(store.chats)[GlobalChat := c.(history := Appended(c.history, ChatMessage(name, text), contextSize),
                                                       users := c.users[DiscordId(name) := name])]
    ensures store.mutedChats == old(store.mutedChats) && store.profiles == old(store.profiles)
  {
    store.AddToHistory(GlobalChat, name, text, contextSize);
    store.TrackUser(GlobalChat, DiscordId(name), name);
  }

  /** The tag in front of this integration's lines: `<name>` as a player, `[name]` as the console. */
  function NameTag(sendAsPlayer: bool, botName: string): string
  {
    if sendAsPlayer then "<" + botName + ">" else "[" + botName + "]"
  }

  /** The line of a part, as this integration's `sendMessageParts` formats it: no part marker, at most 256 characters. */
  function NamedFormat(colorCode: string, sendAsPlayer: bool, botName: string): (nat, string) -> string
  {
    (partNumber: nat, part: string) => NamedLine(colorCode, sendAsPlayer, botName, part)
  }

  /** A line of the bot, cut to 256 characters, still carries its whole tag and is recognised as its own. */
  lemma OwnNamedLineIsEcho(code: char, sendAsPlayer: bool, botName: string, part: string)
    requires IsFormatCode(code)
    requires forall k | 0 <= k < |botName| :: botName[k] != '§'
    requires |botName| + 4 <= MaxLineLength
    ensures IsEcho(NamedLine(['§', code], sendAsPlayer, botName, part), botName)
  {
    var line := NamedLine(['§', code], sendAsPlayer, botName, part);
    var tag := NameTag(sendAsPlayer, botName);
    var full := ['§', code] + tag + " §f" + part;
    assert full == ['§', code] + (if sendAsPlayer then "<" + botName + "> §f" else "[" + botName + "] §f") + part;
    assert StartsWith(full, line);
    assert |line| >= 2 + |tag| by {
      if |full| > MaxLineLength {
        assert |line| == MaxLineLength;
      }
    }
    var rest := line[2 + |tag|..];
    assert line == ['§', code] + tag + rest by {
      assert line == full[..|line|];
      assert line[..2 + |tag|] == (['§', code] + tag);
    }
    assert forall k | 0 <= k < |tag| :: tag[k] != '§';
    StripAfterCode(code, tag, rest);
    assert (tag + StripColorCodes(rest))[..|tag|] == tag;
  }

  /**
   * `sendMessageParts(chatId, full, start, partNumber)` and the chain of
   * delayed calls it schedules: the lines of `ChainParts` in the format
   * `render`. Unlike the game chat's, this chain stores nothing.
   */
  method SendMessageParts(full: string, start: nat, partNumber: nat, render: (nat, string) -> string)
    returns (lines: seq<string>)
    ensures lines == Numbered(render, ChainParts(full, start, partNumber), partNumber)
    decreases if partNumber <= MaxParts then MaxParts + 1 - partNumber else 0
  {
    if partNumber > MaxParts || start >= |full| {
      ChainLinesDone(render, full, start, partNumber);
      return [];
    }
    var remaining := full[start..];
    var n := PartLength(remaining);
    var part := remaining[..n];
    if start + n < |full| && partNumber < MaxParts {
      var rest := SendMessageParts(full, start + n, partNumber + 1, render);
      lines := [render(partNumber, part)] + rest;
      ChainLinesStep(render, full, start, partNumber);
    } else {
      ChainLinesLast(render, full, start, partNumber);
      lines := [render(partNumber, part)];
    }
  }

  /** A reply from Discord goes out as at most two lines of at most 256 characters each. */
  lemma DiscordLinesBounded(colorCode: string, sendAsPlayer: bool, botName: string, full: string)
    ensures var lines := Numbered(NamedFormat(colorCode, sendAsPlayer, botName), ChainParts(full, 0, 1), 1);
      |lines| <= MaxParts && forall k | 0 <= k < |lines| :: |lines[k]| <= MaxLineLength
  {
    var render := NamedFormat(colorCode, sendAsPlayer, botName);
    var parts := ChainParts(full, 0, 1);
    ChainPartsBounds(full, 0, 1);
    forall k | 0 <= k < |parts|
      ensures |Numbered(render, parts, 1)[k]| <= MaxLineLength
    {
      NumberedAt(render, parts, 1, k);
    }
  }

  /** The greeting this integration substitutes for a bare trigger, with the configured bot name. */
  function DiscordGreeting(botName: string): string
  {
    botName + ", привет! Что нужно?"
  }

  /** With the default bot name, the greeting is the game chat's. */
  lemma DefaultGreetingAgrees()
    ensures DiscordGreeting(BotName) == Greeting
  {
  }

  /**
   * `processMessage`: read the author's profile and the history, substitute
   * the greeting for a bare trigger, ask for a reply (`getResponse`, whose
   * failure is caught and only logged), send it in parts and store it once
   * under the bot's name. No apology is sent and no profile analysis runs.
   */
  method ProcessMessage(store: StorageService, chatId: string, playerId: string, playerName: string,
                        message: string, direct: bool, search: bool, trigger: string, botName: string, look: Look,
                        contextSize: int,
                        getResponse: (seq<ChatMessage>, string, string, UserProfile, bool, bool) -> Result<string, BotError>)
    returns (sent: Sent)
    modifies store
    ensures var profile := ProfileOrDefault(old(store.profiles), chatId, playerId);
      var history := ChatOrNew(old(store.chats), chatId).history;
      var reply := getResponse(history, Substituted(message, trigger, DiscordGreeting(botName)), playerName, profile, !direct, search);
      var touched := Touch(old(store.State()), chatId);
      store.profiles == StoreProfile(old(store.profiles), chatId, playerId, profile)
      && if reply.Err? || IsBlank(reply.value) then sent == Sent([], []) && store.State() == touched
         else
           sent.lines == Numbered(NamedFormat(look.colorCode, look.sendAsPlayer, botName), ChainParts(reply.value, 0, 1), 1)
           && sent.mirrored == Mirrors(look.mirror, botName, sent.lines)
           && store.State() == AddMessage(touched, chatId, ChatMessage(botName, reply.value), contextSize)
  {
    var profile := store.GetProfile(chatId, playerId);
    var history := store.GetHistory(chatId);
    var processed := Substituted(message, trigger, DiscordGreeting(botName));
    var reply := getResponse(history, processed, playerName, profile, !direct, search);
    if reply.Err? || IsBlank(reply.value) {
      return Sent([], []);
    }
    var lines := SendMessageParts(reply.value, 0, 1, NamedFormat(look.colorCode, look.sendAsPlayer, botName));
    sent := Sent(lines, Mirrors(look.mirror, botName, lines));
    store.AddToHistory(chatId, botName, reply.value, contextSize);
  }
}
