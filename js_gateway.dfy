/**
 * The Telegram bot's AIManager: the roster built from the configured keys,
 * provider selection, the fallback run over the roster, the routing of the
 * main reply, and the small requests built on the fallback (the YES/NO
 * judgement, the reaction emoji, the quick profile analysis and the flavour
 * phrase).
 *
 * The manager's provider list is fixed once it is built, and a provider is
 * available exactly when it holds keys, which never change; so the list is a
 * value here. What moves is each provider's key cursor, inside its calls: a
 * call is an oracle `gen(i, k, call)` answering for provider `i` at the `k`-th
 * provider call of the request, so that a provider asked twice may answer
 * differently the second time.
 */
module JsGateway {
  import opened Wrappers
  import opened Text
  import opened Gateway
  import Storage
  import JsProviders
  import JsReplies
  import JavaGateway

  const NoProvidersMessage := "Нет доступных AI провайдеров"
  const AllFailedMessage := "Все AI провайдеры исчерпали лимиты или недоступны"

  /** The priority of `selectProvider` for a request that needs neither vision nor search. */
  const PriorityOrder: seq<string> := ["Groq", "DeepSeek", "Gemma", "Gemini"]

  /**
   * The manager once built: its providers in insertion order and, when there
   * is one, the position of the Gemma provider it also keeps on the side.
   */
  datatype Manager = Manager(providers: seq<ProviderInfo>, gemma: Option<nat>)
  {
    predicate Valid()
    {
      gemma.Some? ==> gemma.value < |providers| && providers[gemma.value].name == "Gemma"
    }
  }

  /**
   * The constructor: Gemini, Groq and DeepSeek, each when its key list is not
   * empty, and then Gemma over the Gemini keys.
   */
  function JsManager(gemini: seq<string>, groq: seq<string>, deepseek: seq<string>): (m: Manager)
    ensures m.Valid()
    ensures forall k | 0 <= k < |m.providers| :: m.providers[k].available
    ensures |m.providers| == (if |gemini| > 0 then 2 else 0) + (if |groq| > 0 then 1 else 0) + (if |deepseek| > 0 then 1 else 0)
    ensures m.gemma.Some? <==> |gemini| > 0
    ensures |gemini| > 0 ==> m.providers[0] == JsProviders.Info(JsProviders.Gemini, gemini)
    ensures |gemini| > 0 ==> m.providers[|m.providers| - 1] == JsProviders.Info(JsProviders.Gemma, gemini)
  {
    var ps := (if |gemini| > 0 then [JsProviders.Info(JsProviders.Gemini, gemini)] else [])
      + (if |groq| > 0 then [JsProviders.Info(JsProviders.Groq, groq)] else [])
      + (if |deepseek| > 0 then [JsProviders.Info(JsProviders.DeepSeek, deepseek)] else [])
      + (if |gemini| > 0 then [JsProviders.Info(JsProviders.Gemma, gemini)] else []);
    Manager(ps, if |gemini| > 0 then Some(|ps| - 1) else None)
  }

  /** `selectProvider(requiresVision, requiresSearch)`. */
  function SelectProvider(ps: seq<ProviderInfo>, vision: bool, search: bool): (r: Option<nat>)
    ensures r.Some? ==> r.value < |ps| && ps[r.value].available
    ensures r.None? <==> forall k | 0 <= k < |ps| :: !ps[k].available
  {
    SelectWith(ps, vision, search, PriorityOrder)
  }

  /** With Gemini keys, every vision or search request goes to Gemini, the first provider. */
  lemma VisionGoesToGemini(gemini: seq<string>, groq: seq<string>, deepseek: seq<string>, vision: bool, search: bool)
    requires |gemini| > 0 && (vision || search)
    ensures SelectProvider(JsManager(gemini, groq, deepseek).providers, vision, search) == Some(0)
  {
    var ps := JsManager(gemini, groq, deepseek).providers;
    assert Wants(GeminiFor(vision, search), ps[0]);
  }

  /**
   * A request without vision or search never lands on Gemini: whenever
   * Gemini is configured, Gemma shares its keys and comes first in the
   * priority list.
   */
  lemma PlainChatAvoidsGemini(gemini: seq<string>, groq: seq<string>, deepseek: seq<string>)
    ensures var ps := JsManager(gemini, groq, deepseek).providers;
      var r := SelectProvider(ps, false, false);
      (r.None? <==> ps == []) && (r.Some? ==> ps[r.value].name != "Gemini")
  {
    var m := JsManager(gemini, groq, deepseek);
    var ps := m.providers;
    var g := if |gemini| > 0 then 1 else 0;
    if |groq| > 0 {
      assert ps[g].name == "Groq";
      SelectInOrderPriority(ps, PriorityOrder, 0, g);
    } else if |deepseek| > 0 {
      assert ps[g].name == "DeepSeek";
      assert forall k | 0 <= k < |ps| :: ps[k].name != "Groq";
      SelectInOrderPriority(ps, PriorityOrder, 1, g);
    } else if |gemini| > 0 {
      assert |ps| == 2 && ps[1].name == "Gemma" && ps[0].name == "Gemini";
      SelectInOrderPriority(ps, PriorityOrder, 2, 1);
    }
  }

  /**
   * An image with DeepSeek keys only: the priority list picks DeepSeek, which
   * cannot see images, and no other provider is left to fall back to.
   */
  lemma ImageWithDeepSeekOnly(deepseek: seq<string>)
    requires |deepseek| > 0
    ensures var ps := JsManager([], [], deepseek).providers;
      SelectProvider(ps, true, false) == Some(0) && !ps[0].vision && Candidates(ps, true, false) == [0]
  {
    var ps := JsManager([], [], deepseek).providers;
    assert |ps| == 1 && ps[0].name == "DeepSeek";
    assert SelectProvider(ps, true, false) == Some(0);
    assert Matching(ps, AnyName, 0, true, 0) == [];
  }

  /** Every provider of a run: the selected one, then every other available one that fits. */
  function Candidates(ps: seq<ProviderInfo>, vision: bool, search: bool): (c: seq<nat>)
    ensures c == [] <==> SelectProvider(ps, vision, search).None?
    ensures c != [] ==> c[0] == SelectProvider(ps, vision, search).value
  {
    match SelectProvider(ps, vision, search)
    case None => []
    case Some(pref) => [pref] + Matching(ps, AnyName, pref, vision, |ps|)
  }

  /** The outcome `executeWithFallback` produces, and the number of provider calls. */
  function FallbackRun(ps: seq<ProviderInfo>, task: (nat, nat) -> Result<string, string>, vision: bool, search: bool)
    : Run<string>
  {
    if SelectProvider(ps, vision, search).None? then Run(Err(NoProvidersMessage), 0)
    else RunFrom(Candidates(ps, vision, search), task, 0, AllFailedMessage)
  }

  /**
   * A run calls each provider at most once: first the selected one, then
   * every other available provider (vision-capable when vision is needed),
   * in list order. Search capability is not looked at after the first call.
   */
  lemma CandidatesOnce(ps: seq<ProviderInfo>, vision: bool, search: bool)
    ensures var c := Candidates(ps, vision, search);
      && NoDuplicates(c)
      && (forall j | 0 <= j < |c| :: c[j] < |ps| && ps[c[j]].available)
      && (forall j | 1 <= j < |c| :: !vision || ps[c[j]].vision)
      && (c != [] ==> forall i | 0 <= i < |ps| && ps[i].available && (!vision || ps[i].vision) :: i in c)
  {
    var sel := SelectProvider(ps, vision, search);
    if sel.Some? {
      var pref := sel.value;
      var rest := Matching(ps, AnyName, pref, vision, |ps|);
      MatchingSpec(ps, AnyName, pref, vision, |ps|);
      var c := [pref] + rest;
      forall x, y | 0 <= x < y < |c|
        ensures c[x] != c[y]
      {
        if x == 0 {
          assert Eligible(ps, c[y], AnyName, pref, vision);
        } else {
          assert c[x] == rest[x - 1] && c[y] == rest[y - 1];
        }
      }
      forall i | 0 <= i < |ps| && ps[i].available && (!vision || ps[i].vision)
        ensures i in c
      {
        if i != pref {
          assert Eligible(ps, i, AnyName, pref, vision);
          assert i in rest;
        }
      }
    }
  }

  /**
   * A run that fails after selecting a provider has called every candidate,
   * each failing, and ends with the "all providers" error; a run that
   * succeeds returns its last call's answer untouched.
   */
  lemma FallbackOutcome(ps: seq<ProviderInfo>, task: (nat, nat) -> Result<string, string>, vision: bool, search: bool)
    ensures var run := FallbackRun(ps, task, vision, search);
      var c := Candidates(ps, vision, search);
      && (c == [] ==> run == Run(Err(NoProvidersMessage), 0))
      && (c != [] && run.outcome.Err? ==>
            run.outcome == Err(AllFailedMessage) && run.calls == |c| && forall j | 0 <= j < |c| :: task(c[j], j).Err?)
      && (run.outcome.Ok? ==> 0 < run.calls <= |c| && run.outcome == task(c[run.calls - 1], run.calls - 1))
  {
    if SelectProvider(ps, vision, search).Some? {
      RunFromSpec(Candidates(ps, vision, search), task, 0, AllFailedMessage);
    }
  }

  /**
   * `executeWithFallback(taskFn, requiresVision, requiresSearch)`: no
   * provider to select is an error before any call; otherwise the selected
   * provider, and when it fails one pass over all the others.
   */
  method ExecuteWithFallback(ps: seq<ProviderInfo>, task: (nat, nat) -> Result<string, string>, vision: bool, search: bool)
    returns (r: Result<string, string>, invoked: seq<nat>)
    ensures IsPrefix(invoked, Candidates(ps, vision, search))
    ensures FallbackRun(ps, task, vision, search) == Run(r, |invoked|)
  {
    var selected := SelectProvider(ps, vision, search);
    if selected.None? {
      return Err(NoProvidersMessage), [];
    }
    var pref := selected.value;
    ghost var cands := Candidates(ps, vision, search);
    var first := task(pref, 0);
    invoked := [pref];
    if first.Ok? {
      return first, invoked;
    }
    assert RunFrom(cands, task, 0, AllFailedMessage) == RunFrom(cands, task, 1, AllFailedMessage);
    var found;
    found, invoked := TryPass(ps, task, pref, vision, AnyName, invoked, cands, AllFailedMessage);
    if found.Some? {
      return Ok(found.value), invoked;
    }
    assert |invoked| == |cands|;
    return Err(AllFailedMessage), invoked;
  }

  // ---------------------------------------------------------------------
  // getResponse
  // ---------------------------------------------------------------------

  /** What one provider call asks: `generate(prompt, options)` or `generateWithSystem(system, user, options)`. */
  datatype Call =
    | Generate(prompt: string, options: JsReplies.Options)
    | WithSystem(system: string, user: string, options: JsReplies.Options)

  /** `{ maxTokens: n }`: only a token limit. */
  function Plain(maxTokens: int): JsReplies.Options
  {
    JsReplies.Options(None, maxTokens, false, false, "")
  }

  /**
   * The call `getResponse` makes of the provider named `name`: Groq,
   * DeepSeek and Gemma get the system prompt apart when there is no image;
   * otherwise the prompt goes to `generate` with the image, and only Groq
   * gets the system prompt written in front of it.
   */
  function ReplyCall(name: string, systemPrompt: string, fullPrompt: string, image: Option<JsReplies.Media>): (c: Call)
    ensures image.None? && name in ["Groq", "DeepSeek", "Gemma"] ==> c == WithSystem(systemPrompt, fullPrompt, Plain(2500))
    ensures image.Some? || name !in ["Groq", "DeepSeek", "Gemma"] ==>
      c.Generate? && c.options.media == image && c.options.maxTokens == 2500 && c.options.systemPrompt == systemPrompt
      && (if name == "Groq" then StartsWith(c.prompt, systemPrompt) && EndsWith(c.prompt, fullPrompt) else c.prompt == fullPrompt)
  {
    if (name == "Groq" || name == "DeepSeek" || name == "Gemma") && image.None? then
      WithSystem(systemPrompt, fullPrompt, Plain(2500))
    else
      var prompt := if name == "Groq" && image.Some? then JsReplies.GemmaSystemPrompt(systemPrompt, fullPrompt) else fullPrompt;
      Generate(prompt, JsReplies.Options(image, 2500, false, false, systemPrompt))
  }

  /**
   * An image handed to DeepSeek or Gemma is refused by the provider itself
   * before any request, whatever key is in use.
   */
  lemma ImageRefusedByTextOnly(systemPrompt: string, fullPrompt: string, mime: string, key: string, strip: string -> string,
                               sendDeepSeek: JsReplies.ChatRequest -> Result<Option<JsReplies.DeepSeekBody>, JsReplies.HttpFailure>,
                               sendGemma: JsReplies.ContentRequest -> Result<string, string>)
    requires mime != ""
    ensures var c := ReplyCall("DeepSeek", systemPrompt, fullPrompt, Some(JsReplies.Media(mime)));
      JsReplies.DeepSeekCall(key, c.prompt, c.options, sendDeepSeek).Err?
    ensures var c := ReplyCall("Gemma", systemPrompt, fullPrompt, Some(JsReplies.Media(mime)));
      JsReplies.GemmaCall(c.prompt, c.options, strip, sendGemma) == Err("Gemma: Медиа не поддерживается")
  {
  }

  /** The incoming message: its text, its sender and the text it replies to ("" when none). */
  datatype Incoming = Incoming(text: string, sender: string, replyText: string)

  /** The stored profile fields `getResponse` reads; each may be missing. */
  datatype Profile = Profile(facts: Option<string>, relationship: Option<int>)

  /**
   * `userProfile.relationship || 50` as written: a missing score and a score
   * of 0 both read as 50.
   */
  function ScoreAsWritten(relationship: Option<int>): int
  {
    if relationship.None? || relationship.value == 0 then 50 else relationship.value
  }

  /** The score with 50 standing in only for a missing one. */
  function Score(relationship: Option<int>): (s: int)
    ensures relationship.None? ==> s == 50
    ensures relationship.Some? ==> s == relationship.value
  {
    match relationship
    case None => 50
    case Some(x) => x
  }

  /** A stored score of 0, the worst enemy, reads as 50 and loses its band as written. */
  lemma ZeroScoreLosesBand()
    ensures ScoreAsWritten(Some(0)) == 50 && JavaGateway.BandText(ScoreAsWritten(Some(0))) == ""
    ensures JavaGateway.BandOf(Score(Some(0))) == JavaGateway.Enemy
  {
    assert JavaGateway.BandOf(50) == JavaGateway.Neutral;
  }

  /** The stored score keeps its band; the two readings differ only on 0. */
  lemma ScoreKeepsBand(relationship: Option<int>)
    ensures relationship.Some? ==> JavaGateway.BandOf(Score(relationship)) == JavaGateway.BandOf(relationship.value)
    ensures relationship != Some(0) ==> ScoreAsWritten(relationship) == Score(relationship)
    ensures relationship == Some(0) ==> ScoreAsWritten(relationship) != Score(relationship)
  {
  }

  /** `userProfile.facts || "Нет"`. */
  function FactsText(facts: Option<string>): (t: string)
    ensures t != ""
    ensures facts.Some? && facts.value != "" ==> t == facts.value
  {
    if facts.None? || facts.value == "" then "Нет" else facts.value
  }

  const InstructionHead := "\n!!! СПЕЦ-ИНСТРУКЦИЯ !!!\n"
  const DossierHead := "\n--- ДОСЬЕ ---\nФакты: "

  /**
   * The dossier block: the facts and the relationship band of the score as
   * written, so a stored score of 0 gets no band (see `ZeroScoreLosesBand`).
   */
  function Dossier(p: Profile): (d: string)
    ensures StartsWith(d, DossierHead + FactsText(p.facts) + "\n" + JavaGateway.BandText(ScoreAsWritten(p.relationship)))
  {
    var head := DossierHead + FactsText(p.facts) + "\n" + JavaGateway.BandText(ScoreAsWritten(p.relationship));
    var d := head + "\n-----------------\n";
    assert d[..|head|] == head;
    d
  }

  /** The personal part of the prompt: the special instruction, then the dossier, each only when given. */
  function PersonalInfo(instruction: string, profile: Option<Profile>): (s: string)
    ensures instruction == "" && profile.None? <==> s == ""
    ensures instruction != "" ==> StartsWith(s, InstructionHead + instruction)
    ensures profile.Some? ==> EndsWith(s, Dossier(profile.value))
  {
    var head := if instruction != "" then InstructionHead + instruction + "\n" else "";
    var tail := if profile.Some? then Dossier(profile.value) else "";
    assert (head + tail)[..|head|] == head;
    assert (head + tail)[|head + tail| - |tail|..] == tail;
    assert instruction != "" ==> head[..|InstructionHead + instruction|] == InstructionHead + instruction;
    head + tail
  }

  /** The reply context: the quoted text the message answers, when there is one. */
  function ReplyContext(replyText: string): (s: string)
    ensures replyText == "" <==> s == ""
    ensures replyText != "" ==> EndsWith(s, "\"" + replyText + "\"")
  {
    if replyText == "" then ""
    else
      var head := "!!! ПОЛЬЗОВАТЕЛЬ ОТВЕТИЛ НА СООБЩЕНИЕ:\n";
      var s := head + "\"" + replyText + "\"";
      assert s[|s| - |"\"" + replyText + "\""|..] == "\"" + replyText + "\"";
      s
  }

  /** What `getResponse` is given. */
  datatype ReplyRequest = ReplyRequest(history: seq<Storage.ChatMessage>, message: Incoming, image: Option<JsReplies.Media>,
                                       instruction: string, profile: Option<Profile>, spontaneous: bool)

  /**
   * The main-chat prompt; `template` renders it from whether the reply is
   * spontaneous, the message, the reply context, the last 20 history lines,
   * the personal part and the sender (the clock reading is left to it).
   */
  function FullPrompt(req: ReplyRequest, template: (bool, string, string, string, string, string) -> string): string
  {
    template(req.spontaneous, req.message.text, ReplyContext(req.message.replyText),
             JavaGateway.ContextString(req.history), PersonalInfo(req.instruction, req.profile), req.message.sender)
  }

  /** The provider name at position `i`, for use inside a total task. */
  function NameAt(ps: seq<ProviderInfo>, i: nat): string
  {
    if i < |ps| then ps[i].name else ""
  }

  /** The provider call of `getResponse`: call provider `i` with the call routed for its name. */
  function ReplyTask(ps: seq<ProviderInfo>, gen: (nat, nat, Call) -> Result<string, string>, systemPrompt: string,
                     fullPrompt: string, image: Option<JsReplies.Media>): (nat, nat) -> Result<string, string>
  {
    (i: nat, k: nat) => gen(i, k, ReplyCall(NameAt(ps, i), systemPrompt, fullPrompt, image))
  }

  /**
   * `getResponse`: the fallback run of the routed call, needing vision
   * exactly when there is an image and never search.
   */
  method GetResponse(ps: seq<ProviderInfo>, req: ReplyRequest, systemPrompt: string,
                     template: (bool, string, string, string, string, string) -> string,
                     gen: (nat, nat, Call) -> Result<string, string>)
    returns (r: Result<string, string>, invoked: seq<nat>)
    ensures IsPrefix(invoked, Candidates(ps, req.image.Some?, false))
    ensures FallbackRun(ps, ReplyTask(ps, gen, systemPrompt, FullPrompt(req, template), req.image), req.image.Some?, false)
         == Run(r, |invoked|)
  {
    var task := ReplyTask(ps, gen, systemPrompt, FullPrompt(req, template), req.image);
    r, invoked := ExecuteWithFallback(ps, task, req.image.Some?, false);
  }

  // ---------------------------------------------------------------------
  // shouldAnswer
  // ---------------------------------------------------------------------

  /** The provider call of a request that sends one prompt with fixed options to whichever provider it reaches. */
  function PromptTask(gen: (nat, nat, Call) -> Result<string, string>, prompt: string, options: JsReplies.Options,
                      offset: nat): (nat, nat) -> Result<string, string>
  {
    (i: nat, k: nat) => gen(i, k + offset, Generate(prompt, options))
  }

  /**
   * `shouldAnswer(lastMessages)` with `prompt` the rendered YES/NO template:
   * true exactly when the run's answer contains "YES" in any case; a failed
   * run is a no.
   */
  method ShouldAnswer(ps: seq<ProviderInfo>, prompt: string, gen: (nat, nat, Call) -> Result<string, string>)
    returns (r: bool, invoked: seq<nat>)
    ensures var run := FallbackRun(ps, PromptTask(gen, prompt, Plain(10), 0), false, false);
      && run.calls == |invoked|
      && (r <==> run.outcome.Ok? && JavaGateway.SaysYes(run.outcome.value))
  {
    var outcome;
    outcome, invoked := ExecuteWithFallback(ps, PromptTask(gen, prompt, Plain(10), 0), false, false);
    r := outcome.Ok? && JavaGateway.SaysYes(outcome.value);
  }

  // ---------------------------------------------------------------------
  // determineReaction
  // ---------------------------------------------------------------------

  /** The reactions Telegram accepts, in the bot's list order. */
  const Allowed: seq<string> :=
    ["👍", "👎", "❤", "🔥", "🥰", "👏", "😁", "🤔", "🤯", "😱", "🤬", "😢", "🎉", "🤩", "🤮", "💩", "🙏", "👌"]
    + ["🕊", "🤡", "🥱", "🥴", "😍", "🐳", "❤\U{200D}🔥", "🌚", "🌭", "💯", "🤣", "⚡", "🍌", "🏆", "💔", "🤨"]
    + ["😐", "🍓", "🍾", "💋", "🖕", "😈", "😴", "😭", "🤓", "👻", "👨\U{200D}💻", "👀", "🎃", "🙈", "😇", "😨"]
    + ["🤝", "✍", "🤗", "🫡", "🎅", "🎄", "☃", "💅", "🤪", "🗿", "🆒", "💘", "🙉", "🦄", "😘", "💊", "🙊"]
    + ["😎", "👾", "🤷\U{200D}♂", "🤷", "🤷\U{200D}♀", "😡"]

  /**
   * The reaction read from an answer: the first pictographic code point,
   * which `firstEmoji` finds, when it is an allowed reaction.
   */
  function Reaction(text: string, firstEmoji: string -> Option<char>): (r: Option<string>)
    ensures r.Some? ==> r.value in Allowed && |r.value| == 1
    ensures r.None? <==> firstEmoji(text).None? || [firstEmoji(text).value] !in Allowed
  {
    match firstEmoji(text)
    case Some(c) => if [c] in Allowed then Some([c]) else None
    case None => None
  }

  /**
   * The list's joined emoji (a heart on fire, a technologist, two shrugs)
   * span several code points, and the match takes one, so they are never
   * chosen.
   */
  lemma JoinedReactionsNeverChosen(text: string, firstEmoji: string -> Option<char>)
    ensures "❤\U{200D}🔥" in Allowed && "👨\U{200D}💻" in Allowed
    ensures Reaction(text, firstEmoji) != Some("❤\U{200D}🔥") && Reaction(text, firstEmoji) != Some("👨\U{200D}💻")
  {
    assert Allowed[24] == "❤\U{200D}🔥";
    assert Allowed[44] == "👨\U{200D}💻";
  }

  /** Gemma is asked first when the manager keeps one and it holds keys. */
  predicate GemmaFirst(m: Manager)
    requires m.Valid()
  {
    m.gemma.Some? && m.providers[m.gemma.value].available
  }

  /**
   * `determineReaction(contextText)` with `prompt` the rendered reaction
   * template: Gemma first, and its answer when it names an allowed reaction;
   * otherwise the fallback run, whose answer gives the reaction or none;
   * any failure gives none.
   */
  method DetermineReaction(m: Manager, prompt: string, gen: (nat, nat, Call) -> Result<string, string>,
                           firstEmoji: string -> Option<char>)
    returns (r: Option<string>, invoked: seq<nat>)
    requires m.Valid()
    ensures r.Some? ==> r.value in Allowed
    ensures GemmaFirst(m) ==> |invoked| >= 1 && invoked[0] == m.gemma.value
    ensures var first := if GemmaFirst(m) then gen(m.gemma.value, 0, Generate(prompt, Plain(50))) else Err("");
      if first.Ok? && Reaction(first.value, firstEmoji).Some? then
        r == Reaction(first.value, firstEmoji) && invoked == [m.gemma.value]
      else
        var offset := if GemmaFirst(m) then 1 else 0;
        var run := FallbackRun(m.providers, PromptTask(gen, prompt, Plain(50), offset), false, false);
        && |invoked| == offset + run.calls
        && r == (if run.outcome.Ok? then Reaction(run.outcome.value, firstEmoji) else None)
  {
    var offset := 0;
    invoked := [];
    if GemmaFirst(m) {
      var g := m.gemma.value;
      var first := gen(g, 0, Generate(prompt, Plain(50)));
      invoked := [g];
      if first.Ok? {
        var reaction := Reaction(first.value, firstEmoji);
        if reaction.Some? {
          return reaction, invoked;
        }
      }
      offset := 1;
    }
    var outcome, calls := ExecuteWithFallback(m.providers, PromptTask(gen, prompt, Plain(50), offset), false, false);
    invoked := invoked + calls;
    r := if outcome.Ok? then Reaction(outcome.value, firstEmoji) else None;
  }

  // ---------------------------------------------------------------------
  // analyzeUserImmediate
  // ---------------------------------------------------------------------

  /** `{ expectJson: true, maxTokens: 1000 }`. */
  const AnalyzeOptions := JsReplies.Options(None, 1000, false, true, "")

  /**
   * Whether `safeJsonParse(text, {})` gives an object with fields; `filled`
   * stands for parsing, and empty text is the empty default.
   */
  predicate Filled(text: string, filled: string -> bool)
  {
    text != "" && filled(text)
  }

  /**
   * `analyzeUserImmediate(lastMessages, profile)` with `prompt` the rendered
   * analysis template, up to the JSON text: `Some(t)` is the answer
   * `safeJsonParse(t, {})` reads, `None` the null of a failed run. Gemma's
   * cleaned answer is taken only when it parses to an object with fields;
   * the fallback's cleaned answer is taken whatever it parses to.
   */
  method AnalyzeUserImmediate(m: Manager, prompt: string, gen: (nat, nat, Call) -> Result<string, string>,
                              filled: string -> bool)
    returns (r: Option<string>, invoked: seq<nat>)
    requires m.Valid()
    ensures GemmaFirst(m) ==> |invoked| >= 1 && invoked[0] == m.gemma.value
    ensures var first := if GemmaFirst(m) then gen(m.gemma.value, 0, Generate(prompt, AnalyzeOptions)) else Err("");
      if first.Ok? && Filled(JsReplies.CleanJson(first.value), filled) then
        r == Some(JsReplies.CleanJson(first.value)) && invoked == [m.gemma.value]
      else
        var offset := if GemmaFirst(m) then 1 else 0;
        var run := FallbackRun(m.providers, PromptTask(gen, prompt, AnalyzeOptions, offset), false, false);
        && |invoked| == offset + run.calls
        && r == (if run.outcome.Ok? then Some(JsReplies.CleanJson(run.outcome.value)) else None)
  {
    var offset := 0;
    invoked := [];
    if GemmaFirst(m) {
      var g := m.gemma.value;
      var first := gen(g, 0, Generate(prompt, AnalyzeOptions));
      invoked := [g];
      if first.Ok? {
        var text := JsReplies.CleanJson(first.value);
        if Filled(text, filled) {
          return Some(text), invoked;
        }
      }
      offset := 1;
    }
    var outcome, calls := ExecuteWithFallback(m.providers, PromptTask(gen, prompt, AnalyzeOptions, offset), false, false);
    invoked := invoked + calls;
    r := if outcome.Ok? then Some(JsReplies.CleanJson(outcome.value)) else None;
  }

  /** An empty cleaned answer from Gemma is never taken, whatever the parser says. */
  lemma EmptyAnalysisFallsBack(filled: string -> bool)
    ensures !Filled("", filled)
    ensures JsReplies.CleanJson("```json```") == ""
  {
    assert RemoveAll("```json```", "```json") == "```" by {
      assert OccursAt("```json```", "```json", 0);
      assert "```json```"[7..] == "```";
      assert !Contains("```", "```json");
    }
    assert RemoveAll("```", "```") == "" by {
      assert OccursAt("```", "```", 0);
      assert "```"[3..] == "";
    }
  }

  // ---------------------------------------------------------------------
  // generateFlavorText
  // ---------------------------------------------------------------------

  predicate IsQuote(c: char)
  {
    c == '"' || c == '\''
  }

  /**
   * `text.replace(/^["']|["']$/g, '')`: one quote off the front and one off
   * the end; a lone quote goes with the first.
   */
  function Unquote(t: string): (r: string)
    ensures |t| >= 2 && IsQuote(t[0]) && IsQuote(t[|t| - 1]) ==> r == t[1..|t| - 1]
    ensures (|t| == 0 || !IsQuote(t[0])) && (|t| == 0 || !IsQuote(t[|t| - 1])) ==> r == t
    ensures |t| == 1 && IsQuote(t[0]) ==> r == ""
    ensures |r| <= |t| && |t| - |r| <= 2
  {
    var a := if |t| > 0 && IsQuote(t[0]) then t[1..] else t;
    if |a| > 0 && IsQuote(a[|a| - 1]) then a[..|a| - 1] else a
  }

  /** A phrase wrapped in any two quotes comes back as it was. */
  lemma UnquoteQuoted(s: string, open: char, close: char)
    requires IsQuote(open) && IsQuote(close)
    ensures Unquote([open] + s + [close]) == s
  {
    var t := [open] + s + [close];
    assert t[1..|t| - 1] == s;
  }

  /**
   * `generateFlavorText(task, result)` with `prompt` the rendered flavour
   * template: the run's answer trimmed and unquoted, or the result itself
   * as text when the run fails.
   */
  method GenerateFlavorText(ps: seq<ProviderInfo>, prompt: string, resultText: string,
                            gen: (nat, nat, Call) -> Result<string, string>)
    returns (r: string, invoked: seq<nat>)
    ensures var run := FallbackRun(ps, PromptTask(gen, prompt, Plain(100), 0), false, false);
      && run.calls == |invoked|
      && r == (if run.outcome.Ok? then Unquote(JsTrim(run.outcome.value)) else resultText)
  {
    var outcome;
    outcome, invoked := ExecuteWithFallback(ps, PromptTask(gen, prompt, Plain(100), 0), false, false);
    r := if outcome.Ok? then Unquote(JsTrim(outcome.value)) else resultText;
  }
}
