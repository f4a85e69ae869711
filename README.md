# Psich-bot in Dafny

Psich ("Псич") is a chat bot with a sarcastic talking-cat persona. This project models two versions of it in Dafny and proves properties of the models:

- **The Minecraft plugin (Java).** It answers players in the server chat, comments on deaths, joins and advancements, and mirrors the conversation to Discord.
- **The older Telegram bot (Node.js).** It has the same provider gateway and its own configuration loader.

Both versions send every question to a pool of AI providers: Gemini, Groq, DeepSeek and Gemma. The plugin adds Groq-Simple, a second Groq entry on the smaller model; the Telegram bot has no such entry. Each provider holds a list of API keys. When a key is rate-limited, the provider rotates to its next key. When a provider fails, the gateway falls back to the others.

The network, the SDKs, the prompt templates, the JSON parser and the random chance rolls are parameters of the model: functions or oracles whose answers are given. Everything the bot itself decides around them is modelled. That covers:

- which provider is asked;
- how keys rotate and how often calls are retried;
- how requests are built and replies read;
- how the conversation store changes;
- how a reply is split into chat lines;
- when the bot speaks at all;
- how configuration is read;
- the `/psich` command.

Modules, one per file:

- `Wrappers`: the `Option` and `Result` types.
- `Text`: the Java and JavaScript string operations the bot relies on (trim, case, `indexOf`, `join`, colour-code removal, decimal digits).
- `Storage`: `StorageService`, the per-chat bounded history, user profiles and the mute set.
- `Gateway`: provider selection and the fallback run, shared by both versions.
- `JavaProviders` and `JavaGateway`: the plugin's `BaseProvider` with its Gemini, Groq and DeepSeek subclasses, and its `AIManager`.
- `Delivery`: splitting a reply into at most two parts and rendering them as chat lines.
- `ChatListener`, `GameEvents` and `DiscordSrv`: the three ways a message reaches the plugin.
- `DiscordWebhook`: the webhook sender with its 429 retry loop.
- `Config` and `Commands`: `ConfigManager` and `/psich`.
- `JsConfig`, `JsProviders`, `JsReplies` and `JsGateway`: the Telegram bot's `config.js`, its `base.js` provider and subclasses, the reply shaping of each provider, and its `ai-manager.js`.

State that the source changes in place is modelled by classes: `Storage.StorageService`, `Config.ConfigManager`, `JavaProviders.Provider` and `JsProviders.Provider`. Their methods are proved against specification functions over the old state (for example `Storage.Appended`, `JsProviders.RetrySpec`, `JavaGateway.FallbackRun` and `Gateway.RunFrom`), and the lemmas beside those functions state what the source promises.

## Model

| member | source | states |
|---|---|---|
| Storage.ChatOrNew | src/main/java/com/psich/bot/services/StorageService.java:106-108 | a chat that is not stored yet reads as a fresh chat with that id |
| Storage.Window | src/main/java/com/psich/bot/services/StorageService.java:110-118 | the window keeps the last `n` messages in order, all of them when there are fewer |
| Storage.HistoryBlock | src/main/java/com/psich/bot/services/AIManager.java:232-235 | an empty history renders as the empty text, a single message as its `role: text` line (also ChatListener.java:108-111) |
| Storage.HistoryBlockAppend | src/main/java/com/psich/bot/services/AIManager.java:232-235 | each further message adds a newline and its `role: text` line to the rendering (also GameEventListener.java:68-77) |
| Storage.Appended | src/main/java/com/psich/bot/services/StorageService.java:110-118 | adding a message appends it, and drops exactly the oldest entry when the history then exceeds `contextSize` |
| Storage.HistoryKeepsLastN | src/main/java/com/psich/bot/services/StorageService.java:110-118 | any number of additions to a history within `contextSize` leaves exactly the last `contextSize` messages of everything said |
| Storage.AppendedIsWindow | src/main/java/com/psich/bot/services/StorageService.java:110-118 | one addition to a history within `contextSize` keeps it within `contextSize` and equal to the window of the last messages |
| Storage.OversizedHistoryKeepsLength | src/main/java/com/psich/bot/services/StorageService.java:114-117 | a history longer than `contextSize` (the size was lowered) keeps its length: one entry dropped per message added |
| Storage.Touch | src/main/java/com/psich/bot/services/StorageService.java:106-108 | `getChat` makes the chat exist and changes no stored chat and no mute flag |
| Storage.Toggle | src/main/java/com/psich/bot/services/StorageService.java:154-163 | toggling flips the chat's membership in the mute set and sets the chat's own flag to match |
| Storage.ToggleKeepsValid | src/main/java/com/psich/bot/services/StorageService.java:150-163 | toggling keeps the mute set equal to the set of chats whose flag is set |
| Storage.ToggleTwice | src/main/java/com/psich/bot/services/StorageService.java:154-163 | toggling twice gives back the original state, with the chat now existing |
| Storage.LoadedStateValid | src/main/java/com/psich/bot/services/StorageService.java:55-61 | the mute set rebuilt from loaded chats agrees with their flags |
| Storage.StoredProfileReadBack | src/main/java/com/psich/bot/services/StorageService.java:129-141 | a stored profile is read back as given (relationship not clamped) and every other user's profile is unchanged |
| Storage.StorageService.constructor | src/main/java/com/psich/bot/services/StorageService.java:44-82 | parsed non-null files replace the maps; the mute set is rebuilt from the chats whenever db.json was read; an unreadable file leaves an empty map |
| Storage.StorageService.GetChat | src/main/java/com/psich/bot/services/StorageService.java:106-108 | returns the stored chat or a new one, which is now stored |
| Storage.StorageService.AddToHistory | src/main/java/com/psich/bot/services/StorageService.java:110-118 | the new state is the old one with the message appended and the oldest dropped past `contextSize`; profiles untouched; mute agreement kept |
| Storage.StorageService.GetHistory | src/main/java/com/psich/bot/services/StorageService.java:120-122 | returns the chat's history and only creates the chat |
| Storage.StorageService.TrackUser | src/main/java/com/psich/bot/services/StorageService.java:124-127 | records the user's current name in the chat and changes nothing else |
| Storage.StorageService.GetProfile | src/main/java/com/psich/bot/services/StorageService.java:129-134 | returns the stored profile or a default one, which is then stored |
| Storage.StorageService.UpdateProfile | src/main/java/com/psich/bot/services/StorageService.java:136-141 | replaces one user's profile, creating the chat's table if needed |
| Storage.StorageService.BulkUpdateProfiles | src/main/java/com/psich/bot/services/StorageService.java:143-148 | the chat's table becomes the old table overridden by the updates; other chats are unchanged |
| Storage.StorageService.ToggleMute | src/main/java/com/psich/bot/services/StorageService.java:154-163 | the mute answer flips, the state is `Toggle` of the old one, and mute-flag agreement is kept |
| Storage.StorageService.ClearHistory | src/main/java/com/psich/bot/services/StorageService.java:165-169 | empties the chat's history and keeps its users, mute flag and every profile |
| ChatListener.StripAfterCode | src/main/java/com/psich/bot/listeners/ChatListener.java:48 | removing colour codes from a line that starts with one code and then has no section sign in the tag removes just that code |
| ChatListener.TaggedIsEcho | src/main/java/com/psich/bot/listeners/ChatListener.java:48-49 | any text behind the bot's `[Псич]` or `<Псич>` tag is recognised as the bot's own |
| ChatListener.OwnLineIsEcho | src/main/java/com/psich/bot/listeners/ChatListener.java:48-53 | for a name colour that is a format code (every named colour is, by Config.NamedColor), every line the bot broadcasts, for either part, is recognised as its own when it comes back as chat (also lines 186-201) |
| ChatListener.SearchIgnoresCase | src/main/java/com/psich/bot/listeners/ChatListener.java:64-69 | two messages equal ignoring case ask for a search alike; "НАЙДИ" in capitals asks for one |
| ChatListener.Substituted | src/main/java/com/psich/bot/listeners/ChatListener.java:273-277 | the text sent to the model is the greeting exactly when the trimmed message equals the trigger or "psych" ignoring case, and the message itself otherwise |
| ChatListener.BareTriggerGreets | src/main/java/com/psich/bot/listeners/ChatListener.java:273-277 | any word equal to the trigger or "psych" ignoring case, with blanks around it, is replaced by the greeting |
| ChatListener.React | src/main/java/com/psich/bot/listeners/ChatListener.java:60-137 | defines `onPlayerChat`'s decision in the source's order: a blank message is ignored, the bot's own line is an echo, a muted chat stays silent, a trigger gets a direct reply (searching when asked), and otherwise a long enough and lucky message is judged on the last 15 lines; stated by ChatListener.ReactionRules |
| ChatListener.ReactionRules | src/main/java/com/psich/bot/listeners/ChatListener.java:60-137 | a searching reply happens exactly for a non-blank, non-echo message in an unmuted chat with the trigger and a search keyword; a spontaneous judgement needs no trigger, enough length and the chance draw; the bot's own lines never lead to a reply |
| ChatListener.OnPlayerChat | src/main/java/com/psich/bot/listeners/ChatListener.java:31-139 | the reaction is the decision on the message as stored; a blank message changes nothing; an echo is stored under the bot's name; any other message is stored and its author tracked; mute flags and profiles untouched |
| ChatListener.SendMessageParts | src/main/java/com/psich/bot/listeners/ChatListener.java:155-242 | the broadcast lines are the numbered chain of parts formatted for the look, and the whole reply is stored once under the bot's name |
| ChatListener.ReplyLinesBounded | src/main/java/com/psich/bot/listeners/ChatListener.java:155-182 | a reply goes out as at least one and at most two lines, each part holding at most 250 characters |
| ChatListener.ProcessMessage | src/main/java/com/psich/bot/listeners/ChatListener.java:244-375 | the reply asked for uses the stored history, the greeting substitution and the author's profile; a failure gives exactly the apology line, a blank reply nothing; otherwise the numbered lines and mirrors are sent, the reply is stored and the analysis result, when present, replaces the profile |
| Delivery.PartLength | src/main/java/com/psich/bot/listeners/ChatListener.java:170-182 | a part never exceeds 250 characters or the unsent text; a short text goes whole; a long one breaks after character 175, at a space or else at 250; the last-space choice is stated by Delivery.PartLengthLastSpace |
| Delivery.PartLengthLastSpace | src/main/java/com/psich/bot/listeners/ChatListener.java:174-178 | a long text with a space past 175 and up to 250 is cut at a space no earlier than that one, with no space between the cut and 250: the last space up to 250 |
| Delivery.ChainParts | src/main/java/com/psich/bot/listeners/ChatListener.java:166-181 | defines the chained `sendMessageParts`: each next part starts where the previous one ended, a part breaks at a space past the threshold, and the chain stops after part two; stated by Delivery.ChainPartsBounds, Delivery.ChainPartsPrefix, Delivery.ShortReplyOnePart and Delivery.LongReplyTruncated |
| Delivery.ChainPartsBounds | src/main/java/com/psich/bot/listeners/ChatListener.java:155-182 | the chained sender sends at most two parts, each non-empty and at most 250 characters |
| Delivery.ChainPartsPrefix | src/main/java/com/psich/bot/listeners/ChatListener.java:166-181 | the parts sent, put back together, are a prefix of the reply: nothing is reordered or invented (also lines 231-237) |
| Delivery.ShortReplyOnePart | src/main/java/com/psich/bot/listeners/ChatListener.java:170-172 | a reply of at most 250 characters is sent as one part, whole |
| Delivery.LongReplyTruncated | src/main/java/com/psich/bot/listeners/ChatListener.java:156-157 | a reply longer than 500 characters always loses its end |
| Delivery.Numbered | src/main/java/com/psich/bot/listeners/ChatListener.java:186-201 | one line per part |
| Delivery.ChainLinesStep | src/main/java/com/psich/bot/listeners/ChatListener.java:231-237 | the lines of a chain that goes on are the current part's line, then the lines of the chain started at the next index with the next number |
| Delivery.Mirrors | src/main/java/com/psich/bot/listeners/ChatListener.java:207-222 | one Discord text per line when mirroring is on, none otherwise |
| Delivery.TrimmedParts | src/main/java/com/psich/bot/listeners/GameEventListener.java:424-437 | defines `sendResponse`'s loop: like Delivery.ChainParts, except that the text left after a break is trimmed; stated by Delivery.TrimmedPartsBounds and Delivery.TrimmedPartsFirst |
| Delivery.TrimmedPartsBounds | src/main/java/com/psich/bot/listeners/GameEventListener.java:424-437 | the loop sends at most two parts, each non-empty and at most 250 characters |
| Delivery.TrimmedPartsFirst | src/main/java/com/psich/bot/listeners/GameEventListener.java:424-437 | a non-empty reply sends at least one part, and the first is a prefix of the reply |
| Delivery.NextPart | src/main/java/com/psich/bot/listeners/GameEventListener.java:426-435 | the part the loop cuts is a prefix of the unsent text |
| Delivery.TrimmedLinesStep | src/main/java/com/psich/bot/listeners/GameEventListener.java:424-483 | one turn of the loop sends the line of the next part, then the lines of the trimmed rest |
| Delivery.PsichLine | src/main/java/com/psich/bot/listeners/ChatListener.java:186-201 | a line starts with the name colour, ends with the part, and is exactly 9 (first part) or 25 (second part) characters longer than colour plus part |
| Delivery.NamedLine | src/main/java/com/psich/bot/integrations/DiscordSRVIntegration.java:385-402 | a line is never longer than 256 characters; it is a prefix of the tagged text, and equal to it when that fits |
| Delivery.NamedLineDropsText | src/main/java/com/psich/bot/integrations/DiscordSRVIntegration.java:397-402 | with the default tag, a full 250-character part does not fit: the line is cut and does not carry the whole part |
| Delivery.LeadingRegexSpaces | src/main/java/com/psich/bot/listeners/ChatListener.java:212 | the count of leading `\s` characters, as the anchored `^\s*` matches it |
| Delivery.StripTag | src/main/java/com/psich/bot/listeners/ChatListener.java:212 | removing the tag never lengthens the text |
| Delivery.StripPlainPrefix | src/main/java/com/psich/bot/listeners/ChatListener.java:210 | removing colour codes leaves a prefix without section signs intact |
| Delivery.TrimAfterRegexSpaces | src/main/java/com/psich/bot/listeners/ChatListener.java:212-213 | trimming after the regular expression removed leading `\s` gives the same text as trimming alone |
| Delivery.StripLineCodes | src/main/java/com/psich/bot/listeners/ChatListener.java:210 | removing colour codes from a first-part line leaves the tag and the part without its codes |
| Delivery.StripTagAtStart | src/main/java/com/psich/bot/listeners/ChatListener.java:212 | a text that starts with a bracketed name loses the name, its brackets and the blanks after it |
| Delivery.StripPsichTag | src/main/java/com/psich/bot/listeners/ChatListener.java:212 | the bot's own tag is removed from its lines, with the blank after it |
| Delivery.MirrorOfFirstPart | src/main/java/com/psich/bot/listeners/ChatListener.java:207-213 | for a name colour that is a format code, Discord receives the first part of a reply without colour codes and tag, trimmed |
| DiscordSrv.KeepIdChars | src/main/java/com/psich/bot/integrations/DiscordSRVIntegration.java:179 | only `[a-z0-9]` characters are kept, so the text never grows |
| DiscordSrv.KeepIdCharsOfIdText | src/main/java/com/psich/bot/integrations/DiscordSRVIntegration.java:179 | a text made of id characters is kept whole |
| DiscordSrv.KeepIdCharsOfOtherText | src/main/java/com/psich/bot/integrations/DiscordSRVIntegration.java:179 | a text without id characters disappears |
| DiscordSrv.DiscordId | src/main/java/com/psich/bot/integrations/DiscordSRVIntegration.java:179 | the id is `discord-` followed by id characters only |
| DiscordSrv.DiscordIdCases | src/main/java/com/psich/bot/integrations/DiscordSRVIntegration.java:179 | a lower-case Latin name keeps its id; capitals share the id of the lower-case name; Cyrillic-only names all get the bare prefix |
| DiscordSrv.DiscordReact | src/main/java/com/psich/bot/integrations/DiscordSRVIntegration.java:152-263 | defines `processDiscordMessage`'s decision: a blank message is ignored, the bot's own line is an echo, and the trimmed message is then silent in a muted chat, answered directly on a trigger, or judged when long enough and lucky; stated by DiscordSrv.DiscordReactionRules |
| DiscordSrv.DiscordReactionRules | src/main/java/com/psich/bot/integrations/DiscordSRVIntegration.java:183-263 | a searching reply happens exactly for a non-blank, non-echo message with the trigger and a search keyword in an unmuted chat; a spontaneous judgement needs no trigger, a long enough trimmed text and the draw; the bot's own lines never lead to a reply |
| DiscordSrv.OnDiscordMessage | src/main/java/com/psich/bot/integrations/DiscordSRVIntegration.java:152-263 | a blank message changes nothing; the bot's line is stored as received under the bot's name; another message is stored trimmed under its author (or "Discord"), the author tracked under the derived id; the reaction is the decision on the stored history |
| DiscordSrv.DecideForAuthor | src/main/java/com/psich/bot/integrations/DiscordSRVIntegration.java:182-263 | mute check, then the trigger, then the length-and-chance test on the last 15 messages |
| DiscordSrv.StoreAuthorMessage | src/main/java/com/psich/bot/integrations/DiscordSRVIntegration.java:176-180 | the trimmed message is appended and the author tracked under the Discord id, nothing else changes |
| DiscordSrv.OwnNamedLineIsEcho | src/main/java/com/psich/bot/integrations/DiscordSRVIntegration.java:159-165 | for a name colour that is a format code, every line of this integration, even cut to 256 characters, is recognised as the bot's own (also lines 385-402) |
| DiscordSrv.SendMessageParts | src/main/java/com/psich/bot/integrations/DiscordSRVIntegration.java:354-433 | the lines sent are the numbered chain of parts in the given format |
| DiscordSrv.DiscordLinesBounded | src/main/java/com/psich/bot/integrations/DiscordSRVIntegration.java:354-402 | a reply from Discord goes out in at most two lines of at most 256 characters |
| DiscordSrv.DefaultGreetingAgrees | src/main/java/com/psich/bot/integrations/DiscordSRVIntegration.java:295-298 | with the default bot name the greeting is the game chat's |
| DiscordSrv.ProcessMessage | src/main/java/com/psich/bot/integrations/DiscordSRVIntegration.java:275-343 | the reply asked for uses the stored history, the greeting substitution and the profile; an error or blank reply sends nothing and stores nothing; otherwise the numbered lines and mirrors are sent and the reply is stored once under the bot's name |
| GameEvents.EventContext | src/main/java/com/psich/bot/listeners/GameEventListener.java:64-65 | every event description starts with "Событие: Игрок " and the player's name (also lines 125-128; lines 228-230; lines 303) |
| GameEvents.Gate | src/main/java/com/psich/bot/listeners/GameEventListener.java:43-77 | defines the event handlers' decision in their order: skipped advancements, then the chance draw, then the mute check, and the judged text is the last 15 history lines and the event's description; stated by GameEvents.GateRules and GameEvents.RecipesAndRootsSkipped |
| GameEvents.GateRules | src/main/java/com/psich/bot/listeners/GameEventListener.java:43-77 | an event is judged exactly when it is not filtered, the draw falls below its chance and the chat is not muted; a chance of zero or less silences it, a chance of one always passes; the judged text ends with a line break and the event's description (also lines 120-131) |
| GameEvents.RecipesAndRootsSkipped | src/main/java/com/psich/bot/listeners/GameEventListener.java:120-122 | every recipe unlock and every advancement whose key contains "root" is dropped |
| GameEvents.OnEvent | src/main/java/com/psich/bot/listeners/GameEventListener.java:32-77 | the handler's decision is the gate on the old state; the history is read (creating the chat) only for a judged event; profiles are untouched (also lines 107-160; lines 193-240; lines 272-315) |
| GameEvents.CutPart | src/main/java/com/psich/bot/listeners/GameEventListener.java:426-437 | one cut gives the next part and the trimmed rest |
| GameEvents.SendResponse | src/main/java/com/psich/bot/listeners/GameEventListener.java:401-486 | the loop sends exactly the numbered lines of the trimmed parts of the reply |
| GameEvents.EventLinesBounded | src/main/java/com/psich/bot/listeners/GameEventListener.java:424-454 | an event reply goes out in at most two lines; the first carries the first part, which starts the reply |
| GameEvents.ProcessEvent | src/main/java/com/psich/bot/listeners/GameEventListener.java:347-396 | the lines sent and the new store are `EventOutcome` of the old store: a negative context size or a failed or blank reply sends nothing; otherwise the lines and mirrors go out and the event and the reply are stored in that order |
| GameEvents.EventThenReply | src/main/java/com/psich/bot/listeners/GameEventListener.java:387-388 | with room for two messages, the history ends with the event and then the reply |
| GameEvents.EventOutcome | src/main/java/com/psich/bot/listeners/GameEventListener.java:347-396 | defines `processEvent` on a state: the last `contextSize` messages (a negative size ends it), the player's profile and a reply to the event; a failed or blank reply ends it, and otherwise the reply is sent and the event and the reply are stored in that order; stated by GameEvents.AnsweredEventOutcome and GameEvents.EventThenReply, and GameEvents.ProcessEvent is proved equal to it |
| GameEvents.AnsweredEventOutcome | src/main/java/com/psich/bot/listeners/GameEventListener.java:347-396 | `processEvent` sends at most two lines and keeps the mute set; when it sends anything, the history ends with the event's description and the bot's reply |
| GameEvents.HandleEvent | src/main/java/com/psich/bot/listeners/GameEventListener.java:32-104 | an event that is not judged, or that the judgement refuses, sends nothing and at most creates the chat; an accepted one gives `EventOutcome` of the state after the history read (also lines 347-396) |
| Gateway.FirstWhere | src/main/java/com/psich/bot/services/AIManager.java:70-80 | the first accepted provider from the start index; none before it is accepted; none at all when the scan finds nothing |
| Gateway.SelectInOrder | src/main/java/com/psich/bot/services/AIManager.java:85-99 | the selected provider is available, and nothing is selected exactly when no provider is available |
| Gateway.SelectWith | src/main/java/com/psich/bot/services/AIManager.java:67-100 | the selected provider is available, and nothing is selected exactly when no provider is available |
| Gateway.SelectInOrderPriority | src/main/java/com/psich/bot/services/AIManager.java:85-93 | the priority scan picks a provider of the earliest listed name that any available provider carries, no later than any such provider |
| Gateway.SelectWithPrefersGemini | src/main/java/com/psich/bot/services/AIManager.java:69-81 | a vision or search request goes to the first Gemini having the needed capabilities whenever there is one |
| Gateway.MatchingSpec | src/main/java/com/psich/bot/services/AIManager.java:152-181 | a pass calls exactly the eligible providers (not the preferred one, available, vision-capable when needed, of the pass's name), each once, in list order |
| Gateway.MatchingPrefix | src/main/java/com/psich/bot/services/AIManager.java:153-181 | scanning fewer providers gives a prefix of the longer scan |
| Gateway.RunFrom | src/main/java/com/psich/bot/services/AIManager.java:117-208 | defines the fallback run: the candidates are called in order until one succeeds, and the run ends with the given failure when all fail; stated by Gateway.RunFromSpec and Gateway.RunAfterFailures, and JavaGateway.RunPlan and JsGateway.FallbackOutcome are proved equal to it (also ai-manager.js:113-173) |
| Gateway.RunFromSpec | src/main/java/com/psich/bot/services/AIManager.java:117-208 | a run succeeds exactly when some candidate succeeds, with the first success's text untouched after failures only; otherwise every candidate was called and failed |
| Gateway.RunAfterFailures | src/main/java/com/psich/bot/services/AIManager.java:125-179 | failed calls at the front of a run do not change its result |
| Gateway.TryPass | src/main/java/com/psich/bot/services/AIManager.java:152-206 | one pass either ends the run with its first success, or calls the whole pass and leaves the run open; the calls made start the candidate list |
| JavaGateway.JavaRoster | src/main/java/com/psich/bot/services/AIManager.java:26-50 | Gemini and Gemma when there are Gemini keys, Groq and Groq-Simple for Groq keys, DeepSeek for DeepSeek keys, in that order, all available |
| JavaGateway.SelectProvider | src/main/java/com/psich/bot/services/AIManager.java:67-100 | the selected provider is available, and nothing is selected exactly when none is |
| JavaGateway.SelectSimpleProvider | src/main/java/com/psich/bot/services/AIManager.java:324-341 | the selected provider is available, and nothing is selected exactly when none is |
| JavaGateway.SearchGoesToGemini | src/main/java/com/psich/bot/services/AIManager.java:26-29 | with Gemini keys every search request goes to Gemini (also lines 69-81) |
| JavaGateway.SearchCanLandWithoutSearch | src/main/java/com/psich/bot/services/AIManager.java:69-93 | without Gemini a search request may go to a provider that cannot search (Groq) |
| JavaGateway.PlainChatPrefersGroq | src/main/java/com/psich/bot/services/AIManager.java:85-93 | a plain request takes an available Groq whenever one exists |
| JavaGateway.OrderedPassSpec | src/main/java/com/psich/bot/services/AIManager.java:150-182 | the ordered pass calls exactly the providers other than the preferred one that are available, vision-capable when needed and named in the list |
| JavaGateway.PlanFor | src/main/java/com/psich/bot/services/AIManager.java:150-206 | defines the calls after the preferred provider failed: the ordered pass over the priority names, then the last-resort pass over "Simple" and "Gemma" providers; stated by JavaGateway.PlanSkipsPreferred, JavaGateway.OrderedPassSpec and JavaGateway.LastResortRevisits |
| JavaGateway.FallbackRun | src/main/java/com/psich/bot/services/AIManager.java:104-208 | defines `executeWithFallback`'s outcome: an error before any call when nothing is selectable, otherwise the reference run over the selected provider and the plan; stated by JavaGateway.FallbackReturnsACall and JavaGateway.RunPlan |
| JavaGateway.Candidates | src/main/java/com/psich/bot/services/AIManager.java:102-208 | a run has no candidates exactly when no provider can be selected |
| JavaGateway.FallbackReturnsACall | src/main/java/com/psich/bot/services/AIManager.java:117-206 | a successful run returns the text of one of its calls unchanged |
| JavaGateway.PlanSkipsPreferred | src/main/java/com/psich/bot/services/AIManager.java:152-206 | the fallback plan never calls the preferred provider and calls only available providers, vision-capable when needed |
| JavaGateway.OrderedPassDistinct | src/main/java/com/psich/bot/services/AIManager.java:150-182 | with distinct names no provider is called twice in the ordered pass |
| JavaGateway.LastResortRevisits | src/main/java/com/psich/bot/services/AIManager.java:150-206 | a usable Groq-Simple is planned twice: in the ordered pass and again in the last-resort pass |
| JavaGateway.OrderedPasses | src/main/java/com/psich/bot/services/AIManager.java:150-182 | the named passes either complete the run with their first success or call every provider they name |
| JavaGateway.RunPlan | src/main/java/com/psich/bot/services/AIManager.java:117-208 | the preferred call, then the ordered passes, then the last-resort pass, equal to the reference run over that plan |
| JavaGateway.ExecuteWithFallback | src/main/java/com/psich/bot/services/AIManager.java:102-210 | no selectable provider is an error before any call; otherwise the outcome and the number of calls are those of the reference run over the selected provider and the fallback plan |
| JavaGateway.OrderedFallbackDistinct | src/main/java/com/psich/bot/services/AIManager.java:150-182 | the ordered pass over the priority list calls each provider at most once |
| JavaGateway.GroqSimpleCalledTwice | src/main/java/com/psich/bot/services/AIManager.java:150-206 | in the plugin's plan a usable Groq-Simple is called twice when everything fails |
| JavaGateway.BandText | src/main/java/com/psich/bot/services/AIManager.java:240-247 | the status line is empty exactly in the neutral band (21..79) |
| JavaGateway.BandMonotone | src/main/java/com/psich/bot/services/AIManager.java:241-247 | the band never drops as the score rises |
| JavaGateway.Dossier | src/main/java/com/psich/bot/services/AIManager.java:237-252 | the dossier is empty exactly without a profile, and otherwise starts with the header, the facts and the status line |
| JavaGateway.ReplyOptions | src/main/java/com/psich/bot/services/AIManager.java:278-283 | 400 tokens when searching, 2500 otherwise; the search flag and system prompt are set |
| JavaGateway.PromptFor | src/main/java/com/psich/bot/services/AIManager.java:286-304 | Groq and DeepSeek get the system prompt in the options; every other provider gets it in front of the prompt and none in the options |
| JavaGateway.SearchCut | src/main/java/com/psich/bot/services/AIManager.java:289-296 | the cut lies after 450 and at most at 507: at the last space up to 507 whenever there is one after 450 (no space lies between the cut and 507), and at 507 otherwise |
| JavaGateway.ShapeReply | src/main/java/com/psich/bot/services/AIManager.java:289-298 | a search reply never exceeds 510 characters; a longer one becomes its prefix up to the cut plus "..."; anything else is unchanged (also lines 306-315) |
| JavaGateway.CutReplyKeepsPrefix | src/main/java/com/psich/bot/services/AIManager.java:289-296 | a cut reply keeps at least 451 characters of the original and ends in "..." |
| JavaGateway.ReplyAttempt | src/main/java/com/psich/bot/services/AIManager.java:286-315 | a successful search attempt never exceeds 510 characters |
| JavaGateway.GetResponse | src/main/java/com/psich/bot/services/AIManager.java:220-317 | the outcome is the reference fallback run of the reply task, without vision; a search reply never exceeds 510 characters |
| JavaGateway.SaysYes | src/main/java/com/psich/bot/services/AIManager.java:367 | defines the verdict: the upper-cased reply contains "YES"; stated by JavaGateway.SaysYesIgnoresCase |
| JavaGateway.SaysYesIgnoresCase | src/main/java/com/psich/bot/services/AIManager.java:367 | two replies equal ignoring case get the same YES verdict; "yes" inside another word also counts |
| JavaGateway.MapYes | src/main/java/com/psich/bot/services/AIManager.java:377-383 | a fallback outcome maps to whether its text contains YES, and an error stays the same error |
| JavaGateway.ShouldAnswer | src/main/java/com/psich/bot/services/AIManager.java:343-385 | no simple provider is an error before any call; the simple provider is asked first; if it fails, the answer is the fallback run's, mapped to the YES test |
| JavaGateway.CandidatesStartWithSelected | src/main/java/com/psich/bot/services/AIManager.java:104-118 | a run starts with the selected provider |
| JavaGateway.ShouldAnswerRepeatsProvider | src/main/java/com/psich/bot/services/AIManager.java:324-383 | with only DeepSeek keys a failing `shouldAnswer` asks DeepSeek twice |
| JavaGateway.AnalyzeUserImmediate | src/main/java/com/psich/bot/services/AIManager.java:387-399 | the reply is the fallback run of the analysis request (1000 tokens, JSON), and a success is the text of one of the calls made |
| JavaProviders.ChatMessages | src/main/java/com/psich/bot/services/providers/GroqProvider.java:62-76 | one or two messages, the user's prompt last; a system message first exactly when the system prompt is non-null and non-empty |
| JavaProviders.BuildRequest | src/main/java/com/psich/bot/services/providers/GroqProvider.java:59-86 | the request carries the current key; Gemini sends the prompt as text and the search tool exactly when search is asked; Groq and DeepSeek send their model and the messages, JSON format only for Groq when asked, `stream: false` only for DeepSeek; the token limit and temperature default as each provider does (2048 for Groq, else 2500; 0.9) (also GeminiProvider.java:47-75; DeepSeekProvider.java:47-69) |
| JavaProviders.ReadReply | src/main/java/com/psich/bot/services/providers/GeminiProvider.java:102-131 | a reply is the first candidate's first text part (Gemini) or the first choice's content (the others); a SAFETY or RECITATION finish is "blocked" (Gemini only); anything else missing is an empty response (also GroqProvider.java:115-126) |
| JavaProviders.StatusError | src/main/java/com/psich/bot/services/providers/DeepSeekProvider.java:87-97 | a 402 from DeepSeek is the insufficient-balance error; every other non-2xx status but 429 is an API error with the status and body (also GroqProvider.java:104-112) |
| JavaProviders.TransportError | src/main/java/com/psich/bot/services/providers/GroqProvider.java:127-134 | an I/O failure is a proxy error exactly when its message names both 403 and CONNECT; otherwise a network error carrying the message |
| JavaProviders.NextCursor | src/main/java/com/psich/bot/services/providers/BaseProvider.java:41 | the next cursor wraps from the last key to the first |
| JavaProviders.GenerateSpec | src/main/java/com/psich/bot/services/providers/GroqProvider.java:46-135 | defines `generate(prompt, options, retryCount)`: no keys is an unavailable provider; one request with the key under the cursor; a 2xx reply is read, an I/O failure and any other status end with their errors; a 429 rotates the key and retries while the rotation moved the cursor and fewer than `keys - 1` retries were made, and otherwise ends rate-limited; stated by JavaProviders.TriedKeysConsecutive, JavaProviders.TriedKeysDistinct, JavaProviders.NeverKeysExhausted, JavaProviders.RateLimitedRun, JavaProviders.AllKeysRateLimited and JavaProviders.OnlyRateLimitRotates (the same loop is in GeminiProvider.java and DeepSeekProvider.java) |
| JavaProviders.TriedKeysConsecutive | src/main/java/com/psich/bot/services/providers/GroqProvider.java:46-135 | the keys one call tries are consecutive positions from the cursor, at most `|keys| - retryCount` of them (also BaseProvider.java:36-44) |
| JavaProviders.TriedKeysDistinct | src/main/java/com/psich/bot/services/providers/GroqProvider.java:103-110 | no key is tried twice in one `generate` call |
| JavaProviders.NeverKeysExhausted | src/main/java/com/psich/bot/services/providers/GroqProvider.java:52-54 | started from retry 0, `generate` never reaches the "all keys exhausted" error (also lines 107) |
| JavaProviders.RateLimitedRun | src/main/java/com/psich/bot/services/providers/GroqProvider.java:106-110 | when every reply is a 429, a call from retry r tries `|keys| - r` keys, rotating after each, and reports the rate limit |
| JavaProviders.AllKeysRateLimited | src/main/java/com/psich/bot/services/providers/GroqProvider.java:106-110 | when every key is rate-limited, each key is tried exactly once, the call fails with the rate limit, and the cursor ends where it started |
| JavaProviders.OnlyRateLimitRotates | src/main/java/com/psich/bot/services/providers/GroqProvider.java:103-134 | any reply but a 429 ends the call after one request without moving the cursor |
| JavaProviders.Provider.constructor | src/main/java/com/psich/bot/services/providers/BaseProvider.java:14-19 | a new provider holds its kind and keys with the cursor at 0 |
| JavaProviders.Provider.CurrentKey | src/main/java/com/psich/bot/services/providers/BaseProvider.java:29-34 | no key exactly when the provider has none; otherwise the key under the cursor |
| JavaProviders.Provider.RotateKey | src/main/java/com/psich/bot/services/providers/BaseProvider.java:36-44 | without keys nothing moves and the answer is false; otherwise the cursor advances cyclically, and the answer (it moved) is true exactly when there are at least two keys |
| JavaProviders.Provider.Generate | src/main/java/com/psich/bot/services/providers/GroqProvider.java:41-44 | the outcome, final cursor and keys tried are those of the reference retry chain from retry 0 (also GeminiProvider.java:28-31; DeepSeekProvider.java:29-32) |
| JavaProviders.Provider.GenerateFrom | src/main/java/com/psich/bot/services/providers/GroqProvider.java:46-135 | the outcome, final cursor and keys tried are those of the reference retry chain from the given retry count (also GeminiProvider.java:33-140; DeepSeekProvider.java:34-120) |
| DiscordWebhook.OptionalField | src/main/java/com/psich/bot/integrations/DiscordWebhookIntegration.java:60-65 | `username` and `avatar_url` are sent exactly when given and not blank, and then unchanged |
| DiscordWebhook.PayloadFor | src/main/java/com/psich/bot/integrations/DiscordWebhookIntegration.java:57-65 | defines the JSON payload: the content, with `username` and `avatar_url` only when non-blank; stated by DiscordWebhook.OptionalField |
| DiscordWebhook.WaitFor | src/main/java/com/psich/bot/integrations/DiscordWebhookIntegration.java:95-123 | the pause is never negative: retry_after·1000 + 100 ms when that is a valid sleep, 1100 ms without retry_after, 1000 ms for an unreadable body or a negative or overflowing sum |
| DiscordWebhook.Attempts | src/main/java/com/psich/bot/integrations/DiscordWebhookIntegration.java:75-145 | between the attempt number and three requests are made |
| DiscordWebhook.AttemptsShape | src/main/java/com/psich/bot/integrations/DiscordWebhookIntegration.java:75-145 | every request but the last one was answered 429, there is one wait per retry, and the send succeeds exactly when the last reply was a success |
| DiscordWebhook.FailureNotRetried | src/main/java/com/psich/bot/integrations/DiscordWebhookIntegration.java:126-142 | any other status, or an I/O failure, ends the send after one request, without success |
| DiscordWebhook.ThrottledThrice | src/main/java/com/psich/bot/integrations/DiscordWebhookIntegration.java:101-113 | three 429 replies in a row: three requests, two waits, failure |
| DiscordWebhook.SendMessage | src/main/java/com/psich/bot/integrations/DiscordWebhookIntegration.java:42-154 | without a client, or with a missing or blank URL or message, nothing is posted and the result is false; otherwise the result, the number of requests and the waits are those of the attempt loop over the payload |
| Config.GetString | src/main/java/com/psich/bot/utils/ConfigManager.java:59 | a missing key reads as the default, a text value as itself and a whole number as its decimal text (also lines 75-76; lines 80-82; lines 95) |
| Config.IntValue | src/main/java/com/psich/bot/utils/ConfigManager.java:73-74 | a whole number read as a Java `int` is inside the 32-bit range, unchanged when it already fits, and congruent to the value modulo 2^32 otherwise |
| Config.DoubleIntValue | src/main/java/com/psich/bot/utils/ConfigManager.java:73-74 | a fractional number read as an `int` is truncated toward zero and saturates at the ends of the 32-bit range |
| Config.GetInt | src/main/java/com/psich/bot/utils/ConfigManager.java:73-74 | a numeric value always yields a 32-bit `int`; a missing or non-numeric value yields the default |
| Config.GetDouble | src/main/java/com/psich/bot/utils/ConfigManager.java:61-67 | Bukkit's `getDouble`: a number, a whole one too, reads as itself, and anything else, a missing setting included, as the default |
| Config.GetBoolean | src/main/java/com/psich/bot/utils/ConfigManager.java:77 | Bukkit's `getBoolean`: a boolean setting reads as itself, anything else as the default |
| Config.GetStringList | src/main/java/com/psich/bot/utils/ConfigManager.java:54-56 | Bukkit's `getStringList`: the file's list of strings; without one, the bundled config.yml's list; without either, the empty list |
| Config.HasSetting | src/main/java/com/psich/bot/utils/ConfigManager.java:66 | defines Bukkit's `contains`: the setting is in the file or in the bundled defaults; stated by Config.LegacyChanceOverrides and Config.BundledMessageKeyBlocksLegacy |
| Config.ChancesOf | src/main/java/com/psich/bot/utils/ConfigManager.java:61-72 | defines the four chances: each from its own key, or all four from the legacy key when the configuration contains it and no message key; stated by Config.LegacyChanceOverrides |
| Config.DropEmpty | src/main/java/com/psich/bot/utils/ConfigManager.java:101-107 | filtering never lengthens the key list and leaves no empty key |
| Config.DropEmptyKeeps | src/main/java/com/psich/bot/utils/ConfigManager.java:101-107 | a key survives the filter exactly when it was listed and is not empty; a list without empty keys is unchanged |
| Config.DefaultPromptNotBlank | src/main/java/com/psich/bot/utils/ConfigManager.java:96-99 | the built-in persona is not blank |
| Config.SystemPromptOf | src/main/java/com/psich/bot/utils/ConfigManager.java:95-99 | the loaded system prompt is never blank: a blank or missing one is replaced by the built-in persona |
| Config.ColorAliases | src/main/java/com/psich/bot/utils/ConfigManager.java:203-245 | gray and grey, aqua and cyan, pink, magenta and light_purple name the same colour codes; unlisted or upper-case names are not in the table |
| Config.NamedColor | src/main/java/com/psich/bot/utils/ConfigManager.java:203-245 | every known colour name maps to a colour letter 0-9 or a-f, which is a format code |
| Config.Code | src/main/java/com/psich/bot/utils/ConfigManager.java:204-244 | every colour code is the section sign followed by its letter |
| Config.NameColorCodeAsWritten | src/main/java/com/psich/bot/utils/ConfigManager.java:190-246 | as written the result is two characters, and the only failure is the exception thrown on a value that is a lone section sign |
| Config.LoneSignOnly | src/main/java/com/psich/bot/utils/ConfigManager.java:191-199 | a non-blank value that passes the section-sign test but is shorter than two characters is exactly the lone section sign |
| Config.LoneSign | src/main/java/com/psich/bot/utils/ConfigManager.java:195-198 | a one-character non-space value passes the section-sign test only if it is the section sign |
| Config.ColorCodeOfRawValue | src/main/java/com/psich/bot/utils/ConfigManager.java:195-199 | a colour code with two or more leading spaces yields those spaces, not a colour code |
| Config.LoneSectionSignThrows | src/main/java/com/psich/bot/utils/ConfigManager.java:198-199 | a lone section sign makes the as-written method throw |
| Config.LoneSectionSignYellow | src/main/java/com/psich/bot/utils/ConfigManager.java:190-246 | the corrected lookup answers a lone section sign with the default yellow |
| Config.SectionSignFirst | src/main/java/com/psich/bot/utils/ConfigManager.java:195-198 | a value starting with the section sign passes the lower-cased section-sign test |
| Config.NameColorCode | src/main/java/com/psich/bot/utils/ConfigManager.java:190-246 | the corrected lookup always yields a two-character code starting with the section sign |
| Config.TrimmedColorCode | src/main/java/com/psich/bot/utils/ConfigManager.java:195-246 | a trimmed colour value always maps to a two-character code starting with the section sign |
| Config.DirectCodeAgrees | src/main/java/com/psich/bot/utils/ConfigManager.java:198-199 | when the value starts with the section sign and has no trailing space, the as-written and the corrected lookups agree |
| Config.NamedColorAgrees | src/main/java/com/psich/bot/utils/ConfigManager.java:195-246 | for a colour name without surrounding spaces not starting with the section sign, the as-written and the corrected lookups agree |
| Config.SectionSignLowered | src/main/java/com/psich/bot/utils/ConfigManager.java:195-198 | a value whose lower-cased form starts with the section sign starts with it itself |
| Config.NameCaseInsensitive | src/main/java/com/psich/bot/utils/ConfigManager.java:195 | two colour names that differ only in letter case map to the same code (also lines 203-245) |
| Config.ConfigManager.constructor | src/main/java/com/psich/bot/utils/ConfigManager.java:40-44 | a new manager holds the settings loaded from the file over the bundled defaults and keeps its invariant |
| Config.ConfigManager.LoadConfig | src/main/java/com/psich/bot/utils/ConfigManager.java:46-50 | after loading, every setting is the one read from the file with its default (key lists and `contains` also see the bundled config.yml), no API key list holds an empty key and the persona is not blank (also lines 52-112) |
| Config.ConfigManager.NameColor | src/main/java/com/psich/bot/utils/ConfigManager.java:190-200 | the colour lookup on the loaded name gives two characters, and throws exactly when the name is a lone section sign |
| Config.EmptyFileDefaults | src/main/java/com/psich/bot/utils/ConfigManager.java:54-99 | an empty file loads the documented defaults: trigger "псич", context 20, minimum length 10, name "Псич", colour yellow, Discord on with no webhook; chances 0.05/0.1/0.1/0.1, or all 0.05 when the bundled file has the legacy key and no message key; the key lists are the bundled ones without empty keys |
| Config.LegacyChanceOverrides | src/main/java/com/psich/bot/utils/ConfigManager.java:61-72 | the legacy chance key sets all four chances exactly when the configuration, bundled defaults included, contains it and lacks the per-message key; otherwise each chance keeps its own key |
| Config.BundledMessageKeyBlocksLegacy | src/main/java/com/psich/bot/utils/ConfigManager.java:66 | a per-message key in the bundled config.yml disables the legacy override: a file with only the legacy key keeps the chances 0.05/0.1/0.1/0.1 |
| Commands.Answer | src/main/java/com/psich/bot/commands/PsichCommand.java:18-39 | the command is answered from its arguments and permission alone exactly unless it is an admin subcommand issued by an administrator (also lines 58-61; lines 72-75; lines 83-86) |
| Commands.OnCommand | src/main/java/com/psich/bot/commands/PsichCommand.java:18-92 | every command is handled; a usage, help, unknown or refused command changes nothing; mute toggles the global mute and reports the new state; reload re-reads the configuration over the bundled defaults; reset empties only the global history; the storage invariant is kept |
| Commands.Parse | src/main/java/com/psich/bot/commands/PsichCommand.java:24-37 | defines the subcommand of `args[0].toLowerCase()`: help, mute, reload, reset, or unknown for anything else; stated by Commands.ParseIgnoresCase and Commands.ParseKnown |
| Commands.ParseIgnoresCase | src/main/java/com/psich/bot/commands/PsichCommand.java:24 | subcommands are matched regardless of letter case |
| Commands.ParseKnown | src/main/java/com/psich/bot/commands/PsichCommand.java:26-37 | exactly help, mute, reload and reset, in any case, are subcommands; anything else is unknown |
| Commands.RefusedWithoutPermission | src/main/java/com/psich/bot/commands/PsichCommand.java:58-61 | without the admin permission every admin subcommand gets the same refusal (also lines 72-75; lines 83-86) |
| Commands.HelpForAdmins | src/main/java/com/psich/bot/commands/PsichCommand.java:41-55 | administrators see the six public help lines followed by four admin lines; others see only the public ones |
| Commands.MuteReportsState | src/main/java/com/psich/bot/commands/PsichCommand.java:67 | the mute report differs exactly when the mute state differs |
| JsConfig.TrimmedKey | src/config.js:5-7 | the primary key variable contributes at most one key, never an empty one (also lines 23-25; lines 41-43) |
| JsConfig.KeysFrom | src/config.js:10-17 | the numbered scan yields only non-empty keys, and nothing when its first variable is missing or empty (also lines 28-35; lines 46-53) |
| JsConfig.ScanStopsAtGap | src/config.js:11-16 | when the numbered variables are set up to a gap, the scan yields exactly their trimmed non-empty values in numeric order, and nothing after the gap (also lines 29-34; lines 47-52) |
| JsConfig.PrimaryKey | src/config.js:5-7 | the primary variable gives at most one key, never an empty one |
| JsConfig.CollectKeys | src/config.js:4-17 | a provider's key list is the primary key followed by the numbered keys from 2 on, and holds no empty key (also lines 22-35; lines 40-53) |
| JsConfig.ParseInt | src/config.js:62 | defines `parseInt(t, 10)`: leading white space, an optional sign, then the leading decimal digits, and NaN (here None) without any digit; stated by JsConfig.ParseNatString |
| JsConfig.ParseNatString | src/config.js:62 | `parseInt` reads the decimal text of a number back as that number, whatever non-digit text follows (also lines 82) |
| JsConfig.Tokens | src/config.js:61 | splitting on runs of commas and white space gives non-empty tokens without separators |
| JsConfig.TokenId | src/config.js:62-63 | a token yields an id only when it parses to a number above zero |
| JsConfig.PositiveIds | src/config.js:62-63 | the ids kept are all above zero and never more than the tokens |
| JsConfig.AdminIds | src/config.js:58-64 | a missing or empty variable gives no administrators; every administrator id is above zero |
| JsConfig.TokensOfJoin | src/config.js:61 | splitting comma-joined separator-free tokens gives back the tokens |
| JsConfig.ParseRendered | src/config.js:62-63 | a positive id written in decimal reads back as itself |
| JsConfig.PositiveIdsOfRendered | src/config.js:62-63 | reading back the decimal renderings of positive ids gives the ids in order |
| JsConfig.AdminIdsRoundTrip | src/config.js:58-64 | positive ids written with commas between them parse back to the same ids in the same order |
| JsConfig.AdminId | src/config.js:67 | the compatibility admin id is missing exactly when there are no administrators and is otherwise one of them |
| JsConfig.IsAdmin | src/config.js:76-78 | defines `isAdmin`: the user id is one of the admin ids; stated by JsConfig.AdminFacts |
| JsConfig.AdminFacts | src/config.js:66-67 | without the variable nobody is an administrator; the compatibility admin id is an administrator; an administrator's id is above zero (also lines 76-78) |
| JsConfig.BotId | src/config.js:82 | a token without a colon is parsed whole |
| JsConfig.BotIdOfToken | src/config.js:82 | a token `<id>:<secret>` gives the bot id `<id>` |
| JsConfig.Load | src/config.js:1-99 | loading fails exactly when the bot token is missing; otherwise the settings hold the token, its bot id, the three key lists and the administrators as read from the environment |
| JsProviders.Info | src/services/providers/base.js:18-20 | a provider is available exactly when it has keys; vision and search support are fixed per provider kind (also lines 62-71; gemini.js:48-54; groq.js:33-39; deepseek.js:11-17; gemma.js:51-57) |
| JsProviders.IsQuotaError | src/services/providers/base.js:43-50 | defines the quota test: the lower-cased message contains "429", "quota", "exhausted", "limit" or "rate"; stated by JsProviders.QuotaIgnoresCase, JsProviders.QuotaWordAt and JsReplies.RateLimitIsQuota |
| JsProviders.QuotaIgnoresCase | src/services/providers/base.js:43-50 | two messages equal ignoring case are both quota errors or neither is |
| JsProviders.QuotaWordAt | src/services/providers/base.js:43-50 | a message containing any of "429", "quota", "exhausted", "limit" or "rate", in any case, is a quota error |
| JsProviders.Ceil | src/services/providers/base.js:101 | rounding up gives the least whole number not below the value |
| JsProviders.WaitMillis | src/services/providers/base.js:90-101 | the pause after a quota error is never more than one second, exactly one second without a "retry in" hint, and never negative |
| JsProviders.NextIndex | src/services/providers/base.js:35 | the cyclic step of the key cursor is the next index, wrapping to 0 after the last key |
| JsProviders.RetrySpec | src/services/providers/base.js:76-120 | defines `executeWithRetry`: call with the current key; a success returns; an error that is not about quota is rethrown; a quota error whose retry hint exceeds 30 seconds ends with the daily-limit error; any other quota error pauses, rotates to the next key and retries while attempts remain, and otherwise reports every key exhausted; stated by JsProviders.RetryShape, JsProviders.QuotaRun, JsProviders.AllQuotaFailures, JsProviders.OtherErrorRethrown and JsProviders.LongWaitGivesUp, and JsProviders.Provider.ExecuteWithRetry is proved equal to it |
| JsProviders.RetryShape | src/services/providers/base.js:76-120 | a retry run calls each key at most once, the j-th call with the key j places after the starting one, and rotates fewer times than there are keys |
| JsProviders.RetryPausesShort | src/services/providers/base.js:90-105 | every pause of a retry run is at most one second |
| JsProviders.QuotaRun | src/services/providers/base.js:83-113 | when every call fails on quota, the run calls every remaining key once, pauses after each and reports every key exhausted |
| JsProviders.AllQuotaFailures | src/services/providers/base.js:76-120 | with every call failing on quota, all n keys are tried, the cursor rotates n-1 times and ends one place before where it started, and the error says every key is exhausted |
| JsProviders.OtherErrorRethrown | src/services/providers/base.js:86-87 | an error that is not about quota is rethrown after a single call, without rotating (also lines 115) |
| JsProviders.LongWaitGivesUp | src/services/providers/base.js:92-99 | a quota error asking to wait more than 30 seconds ends the run at once with the daily-limit error |
| JsProviders.RetrySuccess | src/services/providers/base.js:83-85 | a successful run returns the reply of its last call, made with the key that call used |
| JsProviders.RetryEnds | src/services/providers/base.js:84-87 | a first call that succeeds or fails other than on a short quota wait ends the run with its own outcome (also lines 115) |
| JsProviders.RetryGoesOn | src/services/providers/base.js:87-109 | a short quota failure with attempts left pauses, rotates and goes on with the next key |
| JsProviders.RunNeverBlank | src/services/providers/base.js:83-85 | a run whose calls never answer blank never answers blank |
| JsProviders.EmptyErrorWord | src/services/providers/gemini.js:193-194 | the three empty-answer phrases reduce to the word "пустой" alone |
| JsProviders.EmptyAllIsEmptyError | src/services/providers/gemini.js:186 | the all-keys-empty error is itself recognised as an empty-answer error (also lines 193-194) |
| JsProviders.GeminiRoundNotBlank | src/services/providers/gemini.js:61-160 | a Gemini round that answers never answers blank text (also lines 172-177) |
| JsProviders.GeminiOutcome | src/services/providers/gemini.js:165-211 | defines how Gemini's loop ends: at most min(keys, 3) chained rounds; the last round's reply unless it was empty; after an empty last round the all-empty error, with the cursor where that round left it or back at the start; stated by JsProviders.Provider.GenerateGemini and JsProviders.RoundEnds |
| JsProviders.GeminiLoop | src/services/providers/gemini.js:165-211 | defines the loop head: fewer rounds than allowed, chained, all empty, the cursor one key after the last round; stated by JsProviders.RoundGoesOn |
| JsProviders.MatchExtend | src/services/providers/gemini.js:170-211 | each further round of Gemini's loop is the retry run of that round from where the cursor stood |
| JsProviders.RoundGoesOn | src/services/providers/gemini.js:179-190 | an empty round with rounds left keeps the loop going one key further on (also lines 192-205) |
| JsProviders.RoundEnds | src/services/providers/gemini.js:172-214 | the round that ends the loop gives the outcome of the call: its own answer or error, or every key reported empty |
| JsProviders.ChainExtend | src/services/providers/gemini.js:183-205 | a round after an empty one starts one key after where that one ended |
| JsProviders.Provider.constructor | src/services/providers/base.js:5-13 | a new provider starts at key 0 with the client built from the first key when it has one (also gemini.js:6-12; groq.js:5-14; gemma.js:10-16) |
| JsProviders.Provider.CurrentKey | src/services/providers/base.js:25-28 | the current key is missing exactly when the provider has no keys, and is otherwise the key under the cursor |
| JsProviders.Provider.InitClient | src/services/providers/gemini.js:14-16 | the client is rebuilt from the current key unless that key is empty (also groq.js:16-18; gemma.js:18-20) |
| JsProviders.Provider.RotateKey | src/services/providers/base.js:33-38 | rotation fails and changes nothing without keys; otherwise it steps the cursor cyclically, rebuilds the client and succeeds, even with one key (also gemini.js:40-46; groq.js:25-31; gemma.js:43-49) |
| JsProviders.Provider.RetryAttempt | src/services/providers/base.js:84-115 | one attempt either ends the run with its outcome on the same key, or pauses and rotates to the next key when attempts remain, as the retry specification says |
| JsProviders.Provider.ExecuteWithRetry | src/services/providers/base.js:76-120 | without keys an error before any call; otherwise the outcome, final cursor, keys used and pauses are those of the retry specification |
| JsProviders.Provider.GenerateGemini | src/services/providers/gemini.js:56-60 | without keys an error before any call; otherwise the outcome is that of the chain of retry rounds, each started one key after the empty round before it (also lines 163-215) |
| JsProviders.Provider.EmptyRetryRound | src/services/providers/gemini.js:170-210 | one round of Gemini's loop either ends the call with a non-empty outcome, reports every key empty, or rotates and goes on |
| JsProviders.Provider.Generate | src/services/providers/groq.js:41-44 | without keys an error before any call; otherwise the outcome and final cursor of the retry specification (also lines 115; lines 122-149; deepseek.js:19-22; deepseek.js:119; gemma.js:59-62; gemma.js:104) |
| JsReplies.Unfence | src/services/providers/groq.js:104 | defines the fence removal: every "```json" then every "```" removed, then trimmed; stated by JsGateway.EmptyAnalysisFallsBack (also deepseek.js:108; ai-manager.js:293) |
| JsReplies.BraceSlice | src/services/providers/groq.js:105-109 | defines the slice from the first "{" to the last "}" when both exist; stated by JsReplies.BraceSliceShape, BraceSliceWithoutBraces, BraceSliceReversed and BraceSliceIdempotent (also deepseek.js:109-113; gemma.js:93-99) |
| JsReplies.CleanJson | src/services/providers/groq.js:103-110 | defines the `expectJson` cleanup: fences removed, trimmed, then the brace slice; stated by JsReplies.GroqCall and JsReplies.DeepSeekCall (also deepseek.js:107-114; ai-manager.js:293-298) |
| JsReplies.TokenLimit | src/services/providers/gemini.js:82 | the token limit is the caller's when it gives one and the provider's fallback otherwise (also groq.js:78; deepseek.js:59; gemma.js:74) |
| JsReplies.BraceSliceShape | src/services/providers/groq.js:103-110 | with a `{` before a `}`, the JSON clean-up keeps exactly the text from the first `{` to the last `}` (also deepseek.js:107-114; gemma.js:93-99) |
| JsReplies.BraceSliceWithoutBraces | src/services/providers/groq.js:107 | a text lacking either brace passes the clean-up unchanged (also deepseek.js:111; gemma.js:96) |
| JsReplies.BraceSliceReversed | src/services/providers/groq.js:105-109 | when the last `}` precedes the first `{`, the swapped substring bounds keep only what lies between, which holds neither brace (also deepseek.js:109-113; gemma.js:94-98) |
| JsReplies.BraceSliceIdempotent | src/services/providers/groq.js:105-109 | cleaning an already sliced object changes nothing (also deepseek.js:109-113; gemma.js:94-98) |
| JsReplies.NotBlankAppend | src/services/providers/gemini.js:156 | appending to a text that is not blank keeps it not blank |
| JsReplies.GroqCall | src/services/providers/groq.js:46-113 | defines Groq's `apiCall`: media that is not an image is refused before any request, an image goes to the vision model and its answer comes back as is, a text answer is cleaned up when JSON is expected, and a missing answer is the empty string; stated by JsReplies.GroqRefusesOtherMedia and JsReplies.GroqTextVerbatim |
| JsReplies.GroqSystemCall | src/services/providers/groq.js:127-147 | a failed SDK call passes its error through unchanged; otherwise the answer is the first choice's content, or the empty string when there is none, with no JSON clean-up |
| JsReplies.GroqRefusesOtherMedia | src/services/providers/groq.js:50-83 | Groq fails before calling for media that is not an image, and answers successfully for an image whenever the vision model does |
| JsReplies.GroqTextVerbatim | src/services/providers/groq.js:86-112 | without JSON clean-up a Groq text answer is returned exactly as the model wrote it |
| JsReplies.DeepSeekMessages | src/services/providers/deepseek.js:30-50 | the user's prompt is always the last message, after the system message when one is given |
| JsReplies.DeepSeekSystemMessage | src/services/providers/deepseek.js:33-38 | DeepSeek sends a system message exactly when the system prompt is not empty, where Groq always sends two messages (also lines 125-130; groq.js:128-137) |
| JsReplies.FailureMessage | src/services/providers/deepseek.js:71-93 | every error of a failed DeepSeek request starts with "DeepSeek: "; statuses 429, 402 and 400 and unknown statuses add the body's detail, 401 does not, and a request without a response or one that could not be set up has its own text |
| JsReplies.RateLimitIsQuota | src/services/providers/deepseek.js:77-78 | an HTTP 429 from DeepSeek reads as a quota error whatever its detail |
| JsReplies.DeepSeekCall | src/services/providers/deepseek.js:24-117 | defines DeepSeek's `apiCall`: an empty key and any media are refused before the request, a failed request becomes JsReplies.FailureMessage, a body without choices and a blank answer are errors, and a JSON answer is cleaned up; stated by JsReplies.DeepSeekRefusesBeforeSending and JsReplies.DeepSeekAnswerNotBlank |
| JsReplies.DeepSeekAnswerNotBlank | src/services/providers/deepseek.js:96-104 | a successful DeepSeek answer without JSON clean-up is never blank |
| JsReplies.DeepSeekRefusesBeforeSending | src/services/providers/deepseek.js:25-28 | without a key, or with media, DeepSeek fails with its own error before sending anything (also lines 41-44) |
| JsReplies.GeminiParts | src/services/providers/gemini.js:62-76 | Gemini's request has the attachment and an instruction to look at it when there is media, and always ends with the prompt |
| JsReplies.Blocked | src/services/providers/gemini.js:92-104 | defines the blocking categories: the flagged ones, only for a SAFETY or RECITATION finish; stated by JsReplies.GeminiBlocked |
| JsReplies.Flagged | src/services/providers/gemini.js:95-98 | the blocked categories are those rated HIGH or MEDIUM, none other, and are present whenever such a rating is |
| JsReplies.Links | src/services/providers/gemini.js:147-154 | there is at most one link per grounding chunk |
| JsReplies.Dedupe | src/services/providers/gemini.js:155 | removing duplicates keeps exactly the same values, each once, the first one first |
| JsReplies.SourcesDistinct | src/services/providers/gemini.js:143-157 | at most three sources are shown, no two alike, each a link of the chunks, the first link first |
| JsReplies.Attach | src/services/providers/gemini.js:143-160 | defines the sources step: no candidates field keeps the text, an empty one throws, grounding chunks append the sources; stated by JsReplies.AttachKeepsText |
| JsReplies.ReasonOf | src/services/providers/gemini.js:128 | defines the finish reason in error messages: the first candidate's, or "UNKNOWN"; stated by JsReplies.GeminiRaw (also line 139) |
| JsReplies.AttachKeepsText | src/services/providers/gemini.js:143-160 | appending the sources keeps the answer in front, so an answer that is not blank stays so |
| JsReplies.GeminiRaw | src/services/providers/gemini.js:89-130 | defines the text Gemini reads from a response: a SAFETY or RECITATION finish with HIGH or MEDIUM ratings is an error naming their categories; otherwise `response.text()`, or when that throws the joined texts of the first candidate's parts, and an error when that is blank; stated by JsReplies.GeminiBlocked and JsReplies.GeminiAnswerNotBlank |
| JsReplies.GeminiReply | src/services/providers/gemini.js:89-160 | defines Gemini's reading of a response: the raw text, cleaned, must not be blank, then at most three distinct sources are appended; stated by JsReplies.GeminiAnswerNotBlank, JsReplies.GeminiBlocked and JsReplies.AttachKeepsText |
| JsReplies.GeminiAnswerNotBlank | src/services/providers/gemini.js:111-141 | a Gemini answer starts with the cleaned raw text and is never blank |
| JsReplies.GeminiBlocked | src/services/providers/gemini.js:90-103 | a SAFETY or RECITATION finish carrying a HIGH or MEDIUM rating refuses the answer with an error naming the flagged categories |
| JsReplies.GemmaCall | src/services/providers/gemma.js:64-101 | defines Gemma's `apiCall`: any media is refused, the cleaned answer must not be blank, and a JSON answer is cut to its outer braces; stated by JsReplies.GemmaRefusesAnyMedia and JsReplies.GemmaAnswer |
| JsReplies.GemmaSystemPrompt | src/services/providers/gemma.js:110-113 | Gemma's combined prompt starts with the system prompt and ends with the user's |
| JsReplies.GemmaRefusesAnyMedia | src/services/providers/gemma.js:66-68 | Gemma refuses media even without a MIME type, where Gemini then ignores it (also gemini.js:65) |
| JsReplies.GemmaAnswer | src/services/providers/gemma.js:64-102 | a Gemma answer is the cleaned text, or its brace slice when JSON is expected, and never blank without slicing |
| JsGateway.JsManager | src/services/ai-manager.js:11-48 | the manager holds Gemini, Groq and DeepSeek each exactly when it has keys, then Gemma over the Gemini keys, all of them available; Gemma is kept apart exactly when Gemini keys exist |
| JsGateway.SelectProvider | src/services/ai-manager.js:82-108 | the selected provider is an available one, and there is none exactly when no provider is available |
| JsGateway.VisionGoesToGemini | src/services/ai-manager.js:84-93 | with Gemini keys, every vision or search request goes to Gemini |
| JsGateway.PlainChatAvoidsGemini | src/services/ai-manager.js:96-107 | a request without vision or search never selects Gemini, and selects nothing only when there is no provider |
| JsGateway.ImageWithDeepSeekOnly | src/services/ai-manager.js:96-107 | with DeepSeek keys only, an image request selects DeepSeek, which cannot see images, and there is nothing to fall back to (also lines 141-168) |
| JsGateway.FallbackRun | src/services/ai-manager.js:113-172 | defines `executeWithFallback`'s outcome: the no-provider error before any call, otherwise the reference run over the candidates; stated by JsGateway.FallbackOutcome and JsGateway.ExecuteWithFallback |
| JsGateway.Candidates | src/services/ai-manager.js:113-168 | the providers a run may call are empty exactly when none is selected, and start with the selected one |
| JsGateway.CandidatesOnce | src/services/ai-manager.js:141-168 | a run calls each provider at most once, only available ones, only vision-capable ones after the first when vision is needed, and every such provider when the first fails |
| JsGateway.FallbackOutcome | src/services/ai-manager.js:113-173 | no selected provider is an error before any call; a failed run has called every candidate, each failing, and reports all providers failed; a success is the answer of the last call made |
| JsGateway.ExecuteWithFallback | src/services/ai-manager.js:113-173 | the providers called are a prefix of the candidates, and the outcome and number of calls are those of the fallback run |
| JsGateway.ReplyCall | src/services/ai-manager.js:216-244 | without an image Groq, DeepSeek and Gemma get the system prompt apart; otherwise the prompt goes with the image and a 2500-token limit, with the system prompt in front only for Groq |
| JsGateway.ImageRefusedByTextOnly | src/services/ai-manager.js:234-244 | an image routed to DeepSeek or Gemma is refused by the provider before any request |
| JsGateway.ScoreAsWritten | src/services/ai-manager.js:196 | defines the fallback score as written: a missing score and a score of 0 both read as 50; stated by JsGateway.ZeroScoreLosesBand and JsGateway.ScoreKeepsBand |
| JsGateway.Score | src/services/ai-manager.js:196 | the corrected score reads 50 only for a missing relationship and keeps any stored value |
| JsGateway.ZeroScoreLosesBand | src/services/ai-manager.js:196-200 | as written a stored score of 0 reads as 50 and gets no relationship band, though 0 is the enemy band |
| JsGateway.ScoreKeepsBand | src/services/ai-manager.js:196-200 | the corrected score keeps the stored score's band, and differs from the as-written reading only at 0 |
| JsGateway.FactsText | src/services/ai-manager.js:202 | the facts line is never empty and shows the stored facts when there are any |
| JsGateway.Dossier | src/services/ai-manager.js:195-203 | the dossier starts with the facts and the band of the score as written |
| JsGateway.PersonalInfo | src/services/ai-manager.js:186-203 | the personal part is empty exactly without instruction and profile; it starts with the instruction and ends with the dossier when those are given |
| JsGateway.ReplyContext | src/services/ai-manager.js:187-191 | the reply context is empty exactly when the message replies to nothing, and otherwise ends with the quoted text |
| JsGateway.GetResponse | src/services/ai-manager.js:178-246 | the reply is the fallback run of the routed call, needing vision exactly when there is an image, and never search |
| JsGateway.ShouldAnswer | src/services/ai-manager.js:414-424 | the bot joins in exactly when a provider answers and its answer contains "YES" in any case; a failed run is a no |
| JsGateway.Reaction | src/services/ai-manager.js:260-261 | a reaction is chosen exactly when the first emoji of the answer is an allowed one (also lines 272-274) |
| JsGateway.JoinedReactionsNeverChosen | src/services/ai-manager.js:252 | the allowed joined emoji span several code points and are never chosen (also lines 260-261) |
| JsGateway.DetermineReaction | src/services/ai-manager.js:251-279 | Gemma is asked first when it holds keys and its reaction is taken when allowed; otherwise the fallback run decides; any result is an allowed reaction and any failure gives none |
| JsGateway.AnalyzeUserImmediate | src/services/ai-manager.js:284-328 | Gemma is asked first and its cleaned answer is taken only when it parses to a non-empty object; otherwise the fallback run's cleaned answer, or nothing when that fails |
| JsGateway.EmptyAnalysisFallsBack | src/services/ai-manager.js:293-303 | an answer that is only a JSON fence cleans to the empty text, which is never taken from Gemma |
| JsGateway.Unquote | src/services/ai-manager.js:404 | one quote comes off each end; text without quotes at its ends is unchanged; at most two characters go |
| JsGateway.UnquoteQuoted | src/services/ai-manager.js:404 | a phrase wrapped in any two quotes comes back as it was |
| JsGateway.GenerateFlavorText | src/services/ai-manager.js:399-409 | the flavour text is the answer trimmed and unquoted, or the result itself when every provider fails |
| Text.IndexOfChar | src/services/providers/groq.js:105 | `indexOf` gives the first index holding the character, or -1 when there is none (also config.js:82) |
| Text.LastIndexOfFrom | src/main/java/com/psich/bot/listeners/ChatListener.java:176 | `lastIndexOf(c, from)` gives the last index at or before `from` holding the character, or -1 |
| Text.LastIndexOfChar | src/services/providers/groq.js:106 | `lastIndexOf` gives the last index holding the character, or -1 |
| Text.TrimStart | src/main/java/com/psich/bot/utils/ConfigManager.java:195 | trimming the front removes exactly the leading white space |
| Text.TrimEnd | src/main/java/com/psich/bot/utils/ConfigManager.java:195 | trimming the back removes exactly the trailing white space |
| Text.Trim | src/main/java/com/psich/bot/utils/ConfigManager.java:96 | the trimmed text is a slice of the original, starts and ends with non-space, and is empty exactly when the original is all white space (also lines 195) |
| Text.JavaTrimEmptyIffBlank | src/main/java/com/psich/bot/listeners/ChatListener.java:42 | `trim().isEmpty()` holds exactly for texts of white space only (also ConfigManager.java:96) |
| Text.JsTrimEmptyIffBlank | src/services/providers/gemini.js:138 | `trim().length === 0` holds exactly for texts of white space only |
| Text.ToLower | src/main/java/com/psich/bot/commands/PsichCommand.java:24 | lower-casing keeps the length and maps each character on its own (also ChatListener.java:64) |
| Text.ToUpper | src/services/ai-manager.js:419 | upper-casing keeps the length and maps each character on its own |
| Text.LowerOfUpper | src/main/java/com/psich/bot/listeners/ChatListener.java:274-275 | lower-casing after upper-casing is lower-casing, so a text equals its upper-case form ignoring case |
| Text.JavaTrimPadded | src/main/java/com/psich/bot/utils/ConfigManager.java:195 | trimming a text padded with white space on both sides gives back the text |
| Text.RemoveAll | src/services/providers/groq.js:104 | removing every occurrence of a pattern never lengthens the text and leaves a text without the pattern unchanged |
| Text.JsSubstring | src/services/providers/groq.js:108 | JavaScript `substring` never gives more than the text |
| Text.Join | src/main/java/com/psich/bot/services/AIManager.java:232-235 | joining no parts gives the empty text and joining one part gives that part (also ai-manager.js:184) |
| Text.StripColorCodes | src/main/java/com/psich/bot/listeners/ChatListener.java:48 | removing colour codes never lengthens the text and leaves a text without section signs unchanged |
| Text.BreakAt | src/main/java/com/psich/bot/listeners/ChatListener.java:174-181 | a long reply breaks at the last space at or before the limit whenever one lies beyond the threshold (70% of the limit), and at the limit otherwise |
| Text.NatString | src/config.js:62 | a natural number renders as decimal digits without a leading zero |
| Text.NatStringRoundTrip | src/config.js:62 | reading back the decimal digits of a number gives the number |
| Text.IntString | src/main/java/com/psich/bot/utils/ConfigManager.java:59 | an integer renders with a minus sign exactly when it is negative |

## Left out

- JsProviders.Provider.RotateKey: the model keeps only the key that a client was built from. Gemini's `setSystemInstruction` (src/services/ai-manager.js:18, src/services/providers/gemini.js:220-245) builds its model with the persona as system instruction. `rotateKey` then rebuilds it through `initModel` (src/services/providers/gemini.js:14-45), which has no system instruction. So after the first rotation Gemini answers without the persona, and the model cannot express this.
- ChatListener.SendMessageParts: part lengths (250, the break past 175, the 500-character total) count Dafny characters, which are Unicode scalar values. Java's `String.length` counts UTF-16 code units, so the split differs on text with characters outside the Basic Multilingual Plane, such as emoji. The same holds for Delivery.PartLength, GameEvents.SendResponse and DiscordSrv.SendMessageParts.
- Delivery.NamedLine: the 256-character line cap counts Unicode scalar values, not UTF-16 code units (see the line above).
- JavaGateway.SearchCut: the 510-character search truncation counts Unicode scalar values, not UTF-16 code units.
- ChatListener.OnPlayerChat: the `minMessageLength` test counts Unicode scalar values, not UTF-16 code units. The same holds for DiscordSrv.OnDiscordMessage.
- JavaGateway.Dossier: profile facts are a string, never null. `AIManager.java:250` prints "Нет" for null facts, which only a profile parsed from a file without `facts` can carry. JSON parsing is not part of this model.
- Text.ToLower: lower and upper case are mapped for ASCII Latin and basic Cyrillic letters (with Ё/ё) only, while Java's and JavaScript's `toLowerCase` cover all of Unicode. This affects DiscordSrv.DiscordId, Commands.OnCommand, the trigger and search-keyword tests and the colour-name lookup only for letters outside those ranges.
- Commands.OnCommand: `reload` re-runs `Config.ConfigManager.LoadConfig` on the file given. `PsichBot.reload` (src/main/java/com/psich/bot/PsichBot.java:68-74) also hands the new system prompt to the `Prompts` templates, which are not part of this model.
- ChatListener.OnPlayerChat: the trigger regular expression (a whole-word match of the trigger or "psych") is a boolean input. Regular expressions with look-around are not modelled. The same holds for DiscordSrv.OnDiscordMessage.
- DiscordSrv.OwnNamedLineIsEcho: the bot-name pattern at `DiscordSRVIntegration.java:411` escapes only brackets. The model matches the name literally, so a bot name holding other regular-expression metacharacters behaves differently.
- JsReplies.GeminiReply: the toolcode and thought clean-up regular expressions are a parameter `strip`. Only the fence removal and trimming around it are modelled.
- JsGateway.Reaction: the Unicode-property emoji regular expression is a parameter `firstEmoji`.
- JsGateway.AnalyzeUserImmediate: `safeJsonParse` is a parameter `filled` saying whether the text parses to an object with fields.
- JsProviders.RetrySpec: the "retry in Xs" hint is a parameter `retryIn` read from the message, because it comes from a regular expression.
- JavaProviders.Provider.Generate: `GenerateOptions.requiresSearch` is read at `GeminiProvider.java:68` and set at `AIManager.java:283` but is not declared in `BaseProvider.java:50-67`. The model adds it as an optional flag.
- JavaGateway.ExecuteWithFallback: an exception whose message is null makes `error.getMessage().contains(…)` (AIManager.java:126-127) throw out of the catch block, because the message is dereferenced. Errors in the model always carry a message.
- GameEvents.EventContext: the advancement title is a parameter. The source uses `toString()` of an Adventure `Component`, whose text is not part of this model.
- Config.GetStringList: a list whose items are numbers or booleans reads as an empty list here. Bukkit would convert those items to strings.
- Config.ConfigManager.LoadConfig: the config.yml shipped in the plugin jar is a parameter, `bundled`; its contents are not part of this model. Only `getStringList` and `contains` consult it, because every other getter is given an explicit default.
- Config.GetDouble: a whole number reads as its exact value. Java's `long`-to-`double` conversion rounds values above 2^53.
- JsConfig.ParseInt: the number is read exactly. JavaScript's `parseInt` rounds values above 2^53 to a double.
- JsGateway.GetResponse: the Gemma branch at src/services/ai-manager.js:225-231 cannot be reached, because the branch above it already handles Gemma without an image. The model therefore has no case for it.
- `ai-manager.js` `analyzeBatch`, `transcribeAudio`, `parseReminder` and `generateProfileDescription` are left out. They are further instances of `executeWithFallback` with a prompt template and `safeJsonParse` (both parameters here), and they have no logic of their own beyond what `JsGateway.AnalyzeUserImmediate` and `JsGateway.GenerateFlavorText` show.
- `getCurrentTime`, logging, temperatures, the response delay and the retry sleeps are left out. Sleeps appear as recorded durations, as in DiscordWebhook.WaitFor and JsProviders.WaitMillis.
- Scheduling and concurrency (Bukkit tasks, asynchronous JavaScript) are left out. Each asynchronous chain runs as one sequential step, so interleavings of two chats are not modelled.
- Random chance rolls are boolean inputs.
- The file persistence of `StorageService` (`load`/`save`) is left out except for the rebuild of the mute set after loading (Storage.LoadedStateValid).
- `src/main/java/com/psich/bot/services/providers/GemmaProvider.java` is not part of this model: the plugin's Gemma appears only through its name and capabilities in JavaGateway.JavaRoster.
- HTTP and SDK clients, the proxy builder, plugin start-up, DiscordSRV reflection and Telegram polling are left out. They are wiring around the modelled logic.

## Findings

| source | as written | input that shows it | evidently intended | confidence | as-written member | corrected member |
|---|---|---|---|---|---|---|
| src/services/ai-manager.js:196 | `const score = userProfile.relationship \|\| 50` treats a stored score of 0 like a missing one | a profile with `relationship: 0`, the worst enemy, reads as 50 and gets no relationship band in the dossier | use 50 only when the score is missing, so that 0 gets the enemy band | not executed | JsGateway.ZeroScoreLosesBand | JsGateway.ScoreKeepsBand |
| src/main/java/com/psich/bot/utils/ConfigManager.java:199 | `nameColor.substring(0, 2)` slices the raw value, though the test at :195-198 looked at the trimmed one | `chat.name-color: "  §a"` yields the two spaces as the colour code; a lone `"§"` throws StringIndexOutOfBoundsException | take the first two characters of the trimmed value, and fall back to yellow when there is no code letter | not executed | Config.ColorCodeOfRawValue | Config.NameColorCode |

The dossier (JsGateway.Dossier) and `getNameColorCode` (Config.ConfigManager.NameColor) are modelled as written, so that they follow the source. The corrected definitions are proved beside them: JsGateway.Score with JsGateway.ScoreKeepsBand, and Config.NameColorCode with Config.DirectCodeAgrees and Config.LoneSectionSignYellow. Config.LoneSectionSignThrows shows the exception.
