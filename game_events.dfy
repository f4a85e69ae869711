/**
 * The game event listener: deaths, advancements, joins and quits may lead
 * the bot to comment in the global chat. An event passes a filter, a chance
 * draw and the mute check; then `shouldAnswer` judges it together with the
 * recent history, and an accepted event is answered and stored. The
 * asynchronous tasks run here one after the other.
 */
module GameEvents {
  import opened Wrappers
  import opened Text
  import opened Storage
  import opened Delivery
  import opened JavaProviders
  import opened ChatListener
  import Config

  /** A game event the listener handles, with what it reads from the server. */
  datatype GameEvent =
    | Death(player: string, deathMessage: Option<string>)
    | Advancement(player: string, key: string, title: Option<string>)
    | Join(player: string, firstJoin: bool)
    | Quit(player: string)

  /** Root advancements and recipe unlocks are never commented on. */
  predicate SkippedKey(key: string)
  {
    Contains(key, "root") || StartsWith(key, "recipes/")
  }

  predicate Skipped(e: GameEvent)
  {
    e.Advancement? && SkippedKey(e.key)
  }

  /** The chance that applies to an event: joins and quits share one. */
  function ChanceFor(e: GameEvent, chances: Config.Chances): real
  {
    match e
    case Death(_, _) => chances.death
    case Advancement(_, _, _) => chances.advancement
    case Join(_, _) => chances.joinQuit
    case Quit(_) => chances.joinQuit
  }

  /**
   * The description of an event given to the reply generator; an
   * advancement is named by its display title when it has one, else by its
   * key.
   */
  function EventContext(e: GameEvent): (ctx: string)
    ensures StartsWith(ctx, "Событие: Игрок " + e.player)
  {
    var head := "Событие: Игрок " + e.player;
    var tail :=
      match e
      case Death(_, message) =>
        if message.Some? then " - " + message.value else " умер"
      case Advancement(_, key, title) =>
        " получил достижение: " + title.GetOr(key)
      case Join(_, firstJoin) =>
        if firstJoin then " впервые присоединился к серверу" else " присоединился к серверу"
      case Quit(_) => " отключился от сервера";
    assert (head + tail)[..|head|] == head;
    head + tail
  }

  /** What an event leads to before the asynchronous judgement. */
  datatype EventGate =
    | Filtered            // a root or recipe advancement
    | Unlucky             // the chance draw failed
    | Muted               // the global chat is muted
    | Ask(context: string) // `shouldAnswer` is asked about this text

  /**
   * The event handlers' decisions in their order: the advancement filter,
   * then the draw (`draw`, uniform in [0, 1), succeeds below the chance),
   * then the mute check; the judged text is the last 15 history lines, a
   * line break and the event's description.
   */
  function Gate(e: GameEvent, chances: Config.Chances, draw: real, muted: bool, history: seq<ChatMessage>): EventGate
  {
    if Skipped(e) then Filtered
    else if !(draw < ChanceFor(e, chances)) then Unlucky
    else if muted then Muted
    else Ask(HistoryBlock(Window(history, JudgeWindow)) + "\n" + EventContext(e))
  }

  /**
   * Only a kept, lucky event in an unmuted chat is judged, on a text that
   * ends with its description; a chance of zero or less silences a kind of
   * event, and a chance of one lets every draw through.
   */
  lemma GateRules(e: GameEvent, chances: Config.Chances, draw: real, muted: bool, history: seq<ChatMessage>)
    requires 0.0 <= draw < 1.0
    ensures Gate(e, chances, draw, muted, history).Ask?
            <==> !Skipped(e) && draw < ChanceFor(e, chances) && !muted
    ensures ChanceFor(e, chances) <= 0.0 ==> !Gate(e, chances, draw, muted, history).Ask?
    ensures ChanceFor(e, chances) >= 1.0 && !Skipped(e) ==> Gate(e, chances, draw, muted, history) != Unlucky
    ensures var g := Gate(e, chances, draw, muted, history);
      g.Ask? ==> EndsWith(g.context, "\n" + EventContext(e))
  {
    var g := Gate(e, chances, draw, muted, history);
    if g.Ask? {
      var prefix := HistoryBlock(Window(history, JudgeWindow));
      var suffix := "\n" + EventContext(e);
      assert g.context == prefix + suffix;
      assert g.context[|prefix|..] == suffix;
    }
  }

  /** Every advancement under `recipes/`, and every root advancement, is dropped. */
  lemma RecipesAndRootsSkipped(player: string, rest: string, before: string, after: string, title: Option<string>)
    ensures Skipped(Advancement(player, "recipes/" + rest, title))
    ensures Skipped(Advancement(player, before + "root" + after, title))
  {
    var key := before + "root" + after;
    assert key[|before|..|before| + 4] == "root";
    assert OccursAt(key, "root", |before|);
  }

  /**
   * An event handler up to its asynchronous task: the history is read only
   * when the event gets as far as being judged.
   */
  method OnEvent(store: StorageService, e: GameEvent, chances: Config.Chances, draw: real) returns (gate: EventGate)
    modifies store
    ensures gate == Gate(e, chances, draw, old(store.IsMuted(GlobalChat)), ChatOrNew(old(store.chats), GlobalChat).history)
    ensures store.State() == (if gate.Ask? then Touch(old(store.State()), GlobalChat) else old(store.State()))
    ensures store.profiles == old(store.profiles)
  {
    if Skipped(e) {
      return Filtered;
    }
    if !(draw < ChanceFor(e, chances)) {
      return Unlucky;
    }
    if store.IsMuted(GlobalChat) {
      return Muted;
    }
    var history := store.GetHistory(GlobalChat);
    return Ask(HistoryBlock(Window(history, JudgeWindow)) + "\n" + EventContext(e));
  }

  /**
   * One cut of the `sendResponse` loop: a short text goes whole; a long one
   * up to its break point, and the rest is trimmed.
   */
  method CutPart(remaining: string) returns (part: string, rest: string)
    ensures part == NextPart(remaining) && rest == AfterPart(remaining)
  {
    if |remaining| <= MaxPartLength {
      part := remaining;
      rest := [];
    } else {
      var breakPoint := PartLength(remaining);
      part := remaining[..breakPoint];
      rest := JavaTrim(remaining[breakPoint..]);
    }
  }

  /**
   * The loop of `sendResponse`: cut a part, trim what is left, and format
   * the part as a line numbered from one, for at most two parts.
   */
  method SendResponse(response: string, render: (nat, string) -> string) returns (lines: seq<string>)
    ensures lines == Numbered(render, TrimmedParts(response, 1), 1)
  {
    var remaining := response;
    var partNumber: nat := 1;
    ghost var all := Numbered(render, TrimmedParts(response, 1), 1);
    lines := [];
    while remaining != [] && partNumber <= MaxParts
      invariant 1 <= partNumber <= MaxParts + 1
      invariant lines + Numbered(render, TrimmedParts(remaining, partNumber), partNumber) == all
      decreases MaxParts + 1 - partNumber
    {
      ghost var before := remaining;
      var part;
      part, remaining := CutPart(remaining);
      SentSoFar(render, lines, before, partNumber, all);
      lines := lines + [render(partNumber, part)];
      partNumber := partNumber + 1;
    }
    TrimmedLinesDone(render, remaining, partNumber);
  }

  /** The loop invariant of `SendResponse` survives one more part. */
  lemma SentSoFar(render: (nat, string) -> string, lines: seq<string>, remaining: string, partNumber: nat, all: seq<string>)
    requires remaining != [] && partNumber <= MaxParts
    requires lines + Numbered(render, TrimmedParts(remaining, partNumber), partNumber) == all
    ensures (lines + [render(partNumber, NextPart(remaining))])
            + Numbered(render, TrimmedParts(AfterPart(remaining), partNumber + 1), partNumber + 1) == all
  {
    TrimmedLinesStep(render, remaining, partNumber);
  }

  /** An event reply goes out as at most two lines, the first starting the reply. */
  lemma EventLinesBounded(look: Look, response: string)
    ensures |Numbered(LineFormat(look), TrimmedParts(response, 1), 1)| <= MaxParts
    ensures response != [] ==>
      var parts := TrimmedParts(response, 1);
      |parts| >= 1 && StartsWith(response, parts[0])
      && Numbered(LineFormat(look), parts, 1)[0] == PsichLine(look.colorCode, look.sendAsPlayer, 1, parts[0])
  {
    TrimmedPartsBounds(response, 1);
    if response != [] {
      TrimmedPartsFirst(response, 1);
      NumberedAt(LineFormat(look), TrimmedParts(response, 1), 1, 0);
    }
  }

  /** What `processEvent` leaves behind: the lines it sent, the chats and mute set, and the profiles. */
  datatype Processed = Processed(sent: Sent, state: ChatState, profiles: map<string, map<string, UserProfile>>)

  /**
   * `processEvent` on a state: the last `contextSize` messages (a negative
   * size makes the sub-list call throw, which is caught), the player's
   * profile, and a spontaneous reply to the event's description; a failed
   * or blank reply ends it. A reply is sent, then the event and the reply
   * are stored in that order.
   */
  function EventOutcome(st: ChatState, profiles: map<string, map<string, UserProfile>>, chatId: string,
                        playerId: string, playerName: string, eventContext: string, look: Look, contextSize: int,
                        getResponse: (seq<ChatMessage>, string, string, UserProfile, bool, bool) -> Result<string, BotError>)
    : Processed
  {
    var touched := Touch(st, chatId);
    var history := ChatOrNew(st.chats, chatId).history;
    var profile := ProfileOrDefault(profiles, chatId, playerId);
    if contextSize < 0 then Processed(Sent([], []), touched, profiles)
    else
      var reply := getResponse(Window(history, contextSize), eventContext, playerName, profile, true, false);
      var kept := StoreProfile(profiles, chatId, playerId, profile);
      if reply.Err? || IsBlank(reply.value) then Processed(Sent([], []), touched, kept)
      else
        var lines := Numbered(LineFormat(look), TrimmedParts(reply.value, 1), 1);
        Processed(Sent(lines, Mirrors(look.mirror, BotName, lines)),
                  AddMessage(AddMessage(touched, chatId, ChatMessage(playerName, eventContext), contextSize),
                             chatId, ChatMessage(BotName, reply.value), contextSize),
                  kept)
  }

  /** `processEvent`: the sent lines and the new store are `EventOutcome` of the old store. */
  method ProcessEvent(store: StorageService, chatId: string, playerId: string, playerName: string,
                      eventContext: string, look: Look, contextSize: int,
                      getResponse: (seq<ChatMessage>, string, string, UserProfile, bool, bool) -> Result<string, BotError>)
    returns (sent: Sent)
    modifies store
    ensures Processed(sent, store.State(), store.profiles)
         == EventOutcome(old(store.State()), old(store.profiles), chatId, playerId, playerName, eventContext,
                         look, contextSize, getResponse)
  {
    var history := store.GetHistory(chatId);
    if contextSize < 0 {
      return Sent([], []);
    }
    var recent := Window(history, contextSize);
    var profile := store.GetProfile(chatId, playerId);
    var reply := getResponse(recent, eventContext, playerName, profile, true, false);
    if reply.Err? || IsBlank(reply.value) {
      return Sent([], []);
    }
    var lines := SendResponse(reply.value, LineFormat(look));
    sent := Sent(lines, Mirrors(look.mirror, BotName, lines));
    store.AddToHistory(chatId, playerName, eventContext, contextSize);
    store.AddToHistory(chatId, BotName, reply.value, contextSize);
  }

  /** With room for two messages, an answered event leaves its description and then the reply at the end of the history. */
  lemma {:induction false} EventThenReply(history: seq<ChatMessage>, event: ChatMessage, reply: ChatMessage, contextSize: int)
    requires contextSize >= 2
    ensures var h := Appended(Appended(history, event, contextSize), reply, contextSize);
      |h| >= 2 && h[|h| - 2] == event && h[|h| - 1] == reply
  {
    var h1 := Appended(history, event, contextSize);
    assert |h1| >= 1 && h1[|h1| - 1] == event;
  }

  /**
   * Whatever the reply, `processEvent` sends at most two lines and leaves the
   * mute set alone; when it sends anything, the chat's history (with room for
   * two messages) ends with the event's description and then the bot's reply.
   */
  lemma AnsweredEventOutcome(st: ChatState, profiles: map<string, map<string, UserProfile>>, chatId: string,
                             playerId: string, playerName: string, eventContext: string, look: Look, contextSize: int,
                             getResponse: (seq<ChatMessage>, string, string, UserProfile, bool, bool) -> Result<string, BotError>)
    requires contextSize >= 2
    ensures var out := EventOutcome(st, profiles, chatId, playerId, playerName, eventContext, look, contextSize, getResponse);
      |out.sent.lines| <= MaxParts && out.state.muted == st.muted && chatId in out.state.chats
      && (out.sent.lines != [] ==>
            var h := out.state.chats[chatId].history;
            |h| >= 2 && h[|h| - 2] == ChatMessage(playerName, eventContext) && h[|h| - 1].role == BotName)
  {
    var history := ChatOrNew(st.chats, chatId).history;
    var reply := getResponse(Window(history, contextSize), eventContext, playerName,
                             ProfileOrDefault(profiles, chatId, playerId), true, false);
    if reply.Ok? && !IsBlank(reply.value) {
      EventLinesBounded(look, reply.value);
      EventThenReply(ChatOrNew(Touch(st, chatId).chats, chatId).history, ChatMessage(playerName, eventContext),
                     ChatMessage(BotName, reply.value), contextSize);
    }
  }

  /**
   * An event handler and its asynchronous task: the gate, the judgement
   * `shouldAnswer` (whose failure counts as a refusal) and, when it agrees,
   * `processEvent` for the global chat.
   */
  method HandleEvent(store: StorageService, e: GameEvent, playerId: string, chances: Config.Chances, draw: real,
                     shouldAnswer: string -> bool, look: Look, contextSize: int,
                     getResponse: (seq<ChatMessage>, string, string, UserProfile, bool, bool) -> Result<string, BotError>)
    returns (sent: Sent)
    modifies store
    ensures var gate := Gate(e, chances, draw, old(store.IsMuted(GlobalChat)), ChatOrNew(old(store.chats), GlobalChat).history);
      !(gate.Ask? && shouldAnswer(gate.context)) ==>
        sent == Sent([], []) && store.State() == (if gate.Ask? then Touch(old(store.State()), GlobalChat) else old(store.State()))
        && store.profiles == old(store.profiles)
    ensures var gate := Gate(e, chances, draw, old(store.IsMuted(GlobalChat)), ChatOrNew(old(store.chats), GlobalChat).history);
      gate.Ask? && shouldAnswer(gate.context) ==>
        Processed(sent, store.State(), store.profiles)
        == EventOutcome(Touch(old(store.State()), GlobalChat), old(store.profiles), GlobalChat, playerId, e.player,
                        EventContext(e), look, contextSize, getResponse)
    ensures store.mutedChats == old(store.mutedChats)
  {
    var gate := OnEvent(store, e, chances, draw);
    if gate.Ask? && shouldAnswer(gate.context) {
      sent := ProcessEvent(store, GlobalChat, playerId, e.player, EventContext(e), look, contextSize, getResponse);
    } else {
      sent := Sent([], []);
    }
  }
}
