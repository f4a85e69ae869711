/**
 * The plugin's AIManager: the provider roster built from the configured keys,
 * provider selection, the fallback run over the roster, and the shaping of the
 * main reply, the YES/NO judgement and the profile analysis request.
 *
 * A call of a provider from inside a task is an oracle `gen(i, k, prompt,
 * options)`: provider `i` at the `k`-th provider call of the run. Passing the
 * call number lets a provider called twice answer differently the second time,
 * as its key cursor may have moved.
 */
module JavaGateway {
  import opened Wrappers
  import opened Text
  import opened Gateway
  import opened Storage
  import opened JavaProviders

  /** The priority of `selectProvider` and of the ordered fallback pass. */
  const PriorityOrder: seq<string> := ["Groq", "Gemini", "Gemma", "Groq-Simple", "DeepSeek"]

  /** The priority of `selectSimpleProvider`. */
  const SimplePriorityOrder: seq<string> := ["Gemma", "Groq-Simple", "Groq", "Gemini", "DeepSeek"]

  /** The capabilities GemmaProvider declares (its source is not part of this model). */
  datatype GemmaCaps = GemmaCaps(vision: bool, search: bool)

  /**
   * The constructor's roster: Gemini and Gemma when there are Gemini keys,
   * Groq and Groq-Simple when there are Groq keys, DeepSeek when there are
   * DeepSeek keys, in that order. Gemma uses the Gemini keys.
   */
  function JavaRoster(gemini: seq<string>, groq: seq<string>, deepseek: seq<string>, gemma: GemmaCaps)
    : (ps: seq<ProviderInfo>)
    ensures forall k | 0 <= k < |ps| :: ps[k].available
    ensures |ps| == (if |gemini| > 0 then 2 else 0) + (if |groq| > 0 then 2 else 0) + (if |deepseek| > 0 then 1 else 0)
    ensures |gemini| > 0 ==> ps[0] == KindInfo(Gemini, gemini) && ps[1].name == "Gemma"
  {
    (if |gemini| > 0 then [KindInfo(Gemini, gemini), ProviderInfo("Gemma", true, gemma.vision, gemma.search)] else [])
    + (if |groq| > 0 then [KindInfo(Groq(false), groq), KindInfo(Groq(true), groq)] else [])
    + (if |deepseek| > 0 then [KindInfo(DeepSeek, deepseek)] else [])
  }

  /** `selectProvider(requiresVision, requiresSearch)`. */
  function SelectProvider(ps: seq<ProviderInfo>, vision: bool, search: bool): (r: Option<nat>)
    ensures r.Some? ==> r.value < |ps| && ps[r.value].available
    ensures r.None? <==> forall k | 0 <= k < |ps| :: !ps[k].available
  {
    SelectWith(ps, vision, search, PriorityOrder)
  }

  /** `selectSimpleProvider()`. */
  function SelectSimpleProvider(ps: seq<ProviderInfo>): (r: Option<nat>)
    ensures r.Some? ==> r.value < |ps| && ps[r.value].available
    ensures r.None? <==> forall k | 0 <= k < |ps| :: !ps[k].available
  {
    SelectInOrder(ps, SimplePriorityOrder)
  }

  /** With Gemini keys configured, every search request goes to Gemini, the roster's first entry. */
  lemma SearchGoesToGemini(gemini: seq<string>, groq: seq<string>, deepseek: seq<string>, gemma: GemmaCaps, vision: bool)
    requires |gemini| > 0
    ensures SelectProvider(JavaRoster(gemini, groq, deepseek, gemma), vision, true) == Some(0)
  {
    var ps := JavaRoster(gemini, groq, deepseek, gemma);
    assert Wants(GeminiFor(vision, true), ps[0]);
  }

  /**
   * Without a fitting Gemini a search request falls through to the priority
   * scan, which may pick a provider that cannot search.
   */
  lemma SearchCanLandWithoutSearch(groq: seq<string>)
    requires |groq| > 0
    ensures var ps := JavaRoster([], groq, [], GemmaCaps(false, false));
      var r := SelectProvider(ps, false, true);
      r == Some(0) && ps[0].name == "Groq" && !ps[0].search
  {
    var ps := JavaRoster([], groq, [], GemmaCaps(false, false));
    assert Wants(NamedAvailable("Groq"), ps[0]);
  }

  /** A plain chat request takes Groq whenever an available Groq exists. */
  lemma PlainChatPrefersGroq(ps: seq<ProviderInfo>, i: nat)
    requires i < |ps| && ps[i].name == "Groq" && ps[i].available
    ensures var r := SelectProvider(ps, false, false);
      r.Some? && ps[r.value].name == "Groq" && r.value <= i
  {
    SelectInOrderPriority(ps, PriorityOrder, 0, i);
  }

  /**
   * The ordered fallback pass over `names`: for each name in turn, every
   * provider of that name other than the preferred one, available and
   * vision-capable when vision is needed, in roster order.
   */
  function OrderedPass(ps: seq<ProviderInfo>, pref: nat, vision: bool, names: seq<string>): seq<nat>
    decreases |names|
  {
    if names == [] then []
    else Matching(ps, Named(names[0]), pref, vision, |ps|) + OrderedPass(ps, pref, vision, names[1..])
  }

  /**
   * The ordered pass calls exactly the providers other than the preferred
   * one that are available, vision-capable when needed, and named in `names`.
   */
  lemma {:induction false} OrderedPassSpec(ps: seq<ProviderInfo>, pref: nat, vision: bool, names: seq<string>)
    ensures forall k | 0 <= k < |OrderedPass(ps, pref, vision, names)| ::
      var i := OrderedPass(ps, pref, vision, names)[k];
      i < |ps| && i != pref && ps[i].available && (!vision || ps[i].vision) && ps[i].name in names
    ensures forall i | 0 <= i < |ps| && i != pref && ps[i].available && (!vision || ps[i].vision)
      && ps[i].name in names :: i in OrderedPass(ps, pref, vision, names)
    decreases |names|
  {
    if names != [] {
      var first := names[0];
      var tail := names[1..];
      assert names == [first] + tail;
      OrderedPassSpec(ps, pref, vision, tail);
      MatchingSpec(ps, Named(first), pref, vision, |ps|);
      var a := Matching(ps, Named(first), pref, vision, |ps|);
      var b := OrderedPass(ps, pref, vision, tail);
      forall k | 0 <= k < |a + b|
        ensures (a + b)[k] < |ps| && (a + b)[k] != pref && ps[(a + b)[k]].available
          && (!vision || ps[(a + b)[k]].vision) && ps[(a + b)[k]].name in names
      {
        if k < |a| {
          assert (a + b)[k] == a[k];
          assert Eligible(ps, a[k], Named(first), pref, vision);
        } else {
          assert (a + b)[k] == b[k - |a|];
        }
      }
      forall i | 0 <= i < |ps| && i != pref && ps[i].available && (!vision || ps[i].vision) && ps[i].name in names
        ensures i in a + b
      {
        if ps[i].name == first {
          assert Eligible(ps, i, Named(first), pref, vision);
        } else {
          assert ps[i].name in tail;
        }
      }
    }
  }

  /**
   * The providers called after the preferred one failed, for the name list
   * `order`: the ordered pass over `order`, then the last-resort pass over the
   * "Simple" and "Gemma" providers.
   */
  function PlanFor(ps: seq<ProviderInfo>, pref: nat, vision: bool, order: seq<string>): seq<nat>
  {
    OrderedPass(ps, pref, vision, order) + Matching(ps, LastResort, pref, vision, |ps|)
  }

  /** The fallback plan of `executeWithFallback`, over the priority list. */
  function FallbackPlan(ps: seq<ProviderInfo>, pref: nat, vision: bool): seq<nat>
  {
    PlanFor(ps, pref, vision, PriorityOrder)
  }

  /** Every provider of a run: the selected one, then the fallback plan. */
  function Candidates(ps: seq<ProviderInfo>, vision: bool, search: bool): (c: seq<nat>)
    ensures c == [] <==> SelectProvider(ps, vision, search).None?
  {
    match SelectProvider(ps, vision, search)
    case None => []
    case Some(pref) => [pref] + FallbackPlan(ps, pref, vision)
  }

  /** The outcome `executeWithFallback` produces, and the number of provider calls. */
  function FallbackRun(ps: seq<ProviderInfo>, task: (nat, nat) -> Result<string, BotError>, vision: bool, search: bool)
    : Run<BotError>
  {
    if SelectProvider(ps, vision, search).None? then Run(Err(NoProviders), 0)
    else RunFrom(Candidates(ps, vision, search), task, 0, AllProvidersFailed)
  }

  /** A successful fallback run hands back the result of one of its calls unchanged. */
  lemma FallbackReturnsACall(ps: seq<ProviderInfo>, task: (nat, nat) -> Result<string, BotError>, vision: bool,
                             search: bool)
    ensures FallbackRun(ps, task, vision, search).outcome.Ok? ==>
      exists i: nat, k: nat :: FallbackRun(ps, task, vision, search).outcome == task(i, k)
  {
    if SelectProvider(ps, vision, search).Some? {
      var cands := Candidates(ps, vision, search);
      var run := RunFrom(cands, task, 0, AllProvidersFailed);
      RunFromSpec(cands, task, 0, AllProvidersFailed);
      if run.outcome.Ok? {
        assert run.outcome == task(cands[run.calls - 1], run.calls - 1);
      }
    }
  }

  /**
   * The fallback plan never calls the preferred provider, and calls only
   * available providers that can serve a vision request when one is needed.
   */
  lemma PlanSkipsPreferred(ps: seq<ProviderInfo>, pref: nat, vision: bool, order: seq<string>)
    ensures var plan := PlanFor(ps, pref, vision, order);
      forall k | 0 <= k < |plan| ::
        plan[k] < |ps| && plan[k] != pref && ps[plan[k]].available && (!vision || ps[plan[k]].vision)
  {
    var o := OrderedPass(ps, pref, vision, order);
    var m := Matching(ps, LastResort, pref, vision, |ps|);
    OrderedPassSpec(ps, pref, vision, order);
    MatchingSpec(ps, LastResort, pref, vision, |ps|);
    forall k | 0 <= k < |o + m|
      ensures (o + m)[k] < |ps| && (o + m)[k] != pref && ps[(o + m)[k]].available && (!vision || ps[(o + m)[k]].vision)
    {
      if k < |o| {
        assert (o + m)[k] == o[k];
      } else {
        assert (o + m)[k] == m[k - |o|];
        assert Eligible(ps, m[k - |o|], LastResort, pref, vision);
      }
    }
  }

  /** Within the ordered pass of distinct names no provider is called twice. */
  lemma {:induction false} OrderedPassDistinct(ps: seq<ProviderInfo>, pref: nat, vision: bool, names: seq<string>)
    requires forall x, y | 0 <= x < y < |names| :: names[x] != names[y]
    ensures NoDuplicates(OrderedPass(ps, pref, vision, names))
    decreases |names|
  {
    if names != [] {
      var first := names[0];
      var tail := names[1..];
      OrderedPassDistinct(ps, pref, vision, tail);
      OrderedPassSpec(ps, pref, vision, tail);
      MatchingSpec(ps, Named(first), pref, vision, |ps|);
      var a := Matching(ps, Named(first), pref, vision, |ps|);
      var b := OrderedPass(ps, pref, vision, tail);
      assert first !in tail;
      forall x, y | 0 <= x < y < |a + b|
        ensures (a + b)[x] != (a + b)[y]
      {
        if y < |a| {
          assert (a + b)[x] == a[x] && (a + b)[y] == a[y];
        } else if x >= |a| {
          assert (a + b)[x] == b[x - |a|] && (a + b)[y] == b[y - |a|];
        } else {
          assert (a + b)[x] == a[x] && (a + b)[y] == b[y - |a|];
          assert Eligible(ps, a[x], Named(first), pref, vision);
          assert ps[b[y - |a|]].name in tail;
        }
      }
    }
  }

  /**
   * A Groq-Simple provider that may take part in the fallback is planned
   * twice: once in the ordered pass and once more in the last-resort pass.
   */
  lemma LastResortRevisits(ps: seq<ProviderInfo>, pref: nat, vision: bool, order: seq<string>, i: nat)
    requires "Groq-Simple" in order
    requires i < |ps| && i != pref && ps[i].available && (!vision || ps[i].vision)
    requires ps[i].name == "Groq-Simple"
    ensures var plan := PlanFor(ps, pref, vision, order);
      exists x, y | 0 <= x < y < |plan| :: plan[x] == i && plan[y] == i
  {
    var o := OrderedPass(ps, pref, vision, order);
    var m := Matching(ps, LastResort, pref, vision, |ps|);
    OrderedPassSpec(ps, pref, vision, order);
    MatchingSpec(ps, LastResort, pref, vision, |ps|);
    assert i in o;
    assert ps[i].name[5..11] == "Simple";
    assert OccursAt(ps[i].name, "Simple", 5);
    assert Eligible(ps, i, LastResort, pref, vision);
    assert i in m;
    var x :| 0 <= x < |o| && o[x] == i;
    var y :| 0 <= y < |m| && m[y] == i;
    var plan := o + m;
    assert plan == PlanFor(ps, pref, vision, order);
    assert plan[x] == i && plan[|o| + y] == i;
  }

  /** Whatever the passes for `names` start also starts with the whole pass for the first name. */
  lemma FirstPassPrefix(ps: seq<ProviderInfo>, pref: nat, vision: bool, names: seq<string>,
                        invoked: seq<nat>, cands: seq<nat>)
    requires names != []
    requires IsPrefix(invoked + OrderedPass(ps, pref, vision, names), cands)
    ensures IsPrefix(invoked + Matching(ps, Named(names[0]), pref, vision, |ps|), cands)
  {
    var next := Matching(ps, Named(names[0]), pref, vision, |ps|);
    var rest := OrderedPass(ps, pref, vision, names[1..]);
    assert invoked + OrderedPass(ps, pref, vision, names) == (invoked + next) + rest;
    PrefixOfConcat(invoked + next, rest);
    PrefixTrans(invoked + next, invoked + OrderedPass(ps, pref, vision, names), cands);
  }

  /** After the pass for `order[a]` the passes still to run are those for the names after it. */
  lemma PassDone(ps: seq<ProviderInfo>, pref: nat, vision: bool, order: seq<string>, a: nat,
                 before: seq<nat>, invoked: seq<nat>)
    requires a < |order| && invoked == before + Matching(ps, Named(order[a]), pref, vision, |ps|)
    ensures invoked + OrderedPass(ps, pref, vision, order[a + 1..]) == before + OrderedPass(ps, pref, vision, order[a..])
  {
    var next := Matching(ps, Named(order[a]), pref, vision, |ps|);
    assert order[a..][1..] == order[a + 1..];
    calc {
      before + OrderedPass(ps, pref, vision, order[a..]);
      before + (next + OrderedPass(ps, pref, vision, order[a + 1..]));
      { assert before + (next + OrderedPass(ps, pref, vision, order[a + 1..]))
            == (before + next) + OrderedPass(ps, pref, vision, order[a + 1..]); }
      invoked + OrderedPass(ps, pref, vision, order[a + 1..]);
    }
  }

  /**
   * The named passes of `executeWithFallback`: for each name of `order`, call
   * the providers the pass for that name accepts, stopping at the first
   * success. The calls are numbered on from the `prior` calls; the passes
   * either complete the run over `cands` or call every provider they name.
   */
  method OrderedPasses(ps: seq<ProviderInfo>, task: (nat, nat) -> Result<string, BotError>, pref: nat, vision: bool,
                       order: seq<string>, prior: seq<nat>, ghost cands: seq<nat>)
    returns (found: Option<string>, invoked: seq<nat>)
    requires IsPrefix(prior + OrderedPass(ps, pref, vision, order), cands)
    requires RunFrom(cands, task, 0, AllProvidersFailed) == RunFrom(cands, task, |prior|, AllProvidersFailed)
    ensures IsPrefix(invoked, cands)
    ensures found.None? ==> invoked == prior + OrderedPass(ps, pref, vision, order)
    ensures found.None? ==> RunFrom(cands, task, 0, AllProvidersFailed) == RunFrom(cands, task, |invoked|, AllProvidersFailed)
    ensures found.Some? ==> RunFrom(cands, task, 0, AllProvidersFailed) == Run(Ok(found.value), |invoked|)
  {
    invoked := prior;
    var a := 0;
    while a < |order|
      invariant 0 <= a <= |order|
      invariant invoked + OrderedPass(ps, pref, vision, order[a..]) == prior + OrderedPass(ps, pref, vision, order)
      invariant IsPrefix(invoked + OrderedPass(ps, pref, vision, order[a..]), cands)
      invariant RunFrom(cands, task, 0, AllProvidersFailed) == RunFrom(cands, task, |invoked|, AllProvidersFailed)
    {
      ghost var before := invoked;
      FirstPassPrefix(ps, pref, vision, order[a..], invoked, cands);
      found, invoked := TryPass(ps, task, pref, vision, Named(order[a]), invoked, cands, AllProvidersFailed);
      if found.Some? {
        return;
      }
      PassDone(ps, pref, vision, order, a, before, invoked);
      a := a + 1;
    }
    found := None;
    assert invoked + OrderedPass(ps, pref, vision, order[a..]) == invoked + [];
    PrefixOfConcat(invoked, []);
  }

  /**
   * The body of `executeWithFallback` once `pref` is selected: call it; when
   * it fails, run the pass of each name of `order` and then the last-resort
   * pass, returning the first success. Returns the outcome and the providers
   * called, in call order.
   */
  method RunPlan(ps: seq<ProviderInfo>, task: (nat, nat) -> Result<string, BotError>, pref: nat, vision: bool,
                 order: seq<string>)
    returns (r: Result<string, BotError>, invoked: seq<nat>)
    ensures IsPrefix(invoked, [pref] + PlanFor(ps, pref, vision, order))
    ensures RunFrom([pref] + PlanFor(ps, pref, vision, order), task, 0, AllProvidersFailed) == Run(r, |invoked|)
  {
    ghost var ordered := OrderedPass(ps, pref, vision, order);
    ghost var rest := Matching(ps, LastResort, pref, vision, |ps|);
    ghost var cands := [pref] + PlanFor(ps, pref, vision, order);
    assert cands == [pref] + ordered + rest;
    PrefixOfConcat([pref] + ordered, rest);
    PrefixOfConcat([pref], ordered + rest);
    assert cands[0] == pref;
    var first := task(pref, 0);
    invoked := [pref];
    if first.Ok? {
      return first, invoked;
    }

    var found;
    found, invoked := OrderedPasses(ps, task, pref, vision, order, [pref], cands);
    if found.Some? {
      return Ok(found.value), invoked;
    }

    assert invoked + rest == cands;
    PrefixOfConcat(invoked + rest, []);
    assert invoked + rest + [] == cands;
    found, invoked := TryPass(ps, task, pref, vision, LastResort, invoked, cands, AllProvidersFailed);
    if found.Some? {
      return Ok(found.value), invoked;
    }
    return Err(AllProvidersFailed), invoked;
  }

  /**
   * `executeWithFallback(task, requiresVision, requiresSearch)`: no provider
   * to select is an error before any call; otherwise the selected provider
   * and then the fallback plan over the priority list.
   */
  method ExecuteWithFallback(ps: seq<ProviderInfo>, task: (nat, nat) -> Result<string, BotError>,
                             vision: bool, search: bool)
    returns (r: Result<string, BotError>, invoked: seq<nat>)
    ensures IsPrefix(invoked, Candidates(ps, vision, search))
    ensures FallbackRun(ps, task, vision, search) == Run(r, |invoked|)
  {
    var selected := SelectProvider(ps, vision, search);
    if selected.None? {
      return Err(NoProviders), [];
    }
    r, invoked := RunPlan(ps, task, selected.value, vision, PriorityOrder);
    assert Candidates(ps, vision, search) == [selected.value] + PlanFor(ps, selected.value, vision, PriorityOrder);
  }

  /** The ordered fallback pass of the priority list calls each provider at most once. */
  lemma OrderedFallbackDistinct(ps: seq<ProviderInfo>, pref: nat, vision: bool)
    ensures NoDuplicates(OrderedPass(ps, pref, vision, PriorityOrder))
  {
    OrderedPassDistinct(ps, pref, vision, PriorityOrder);
  }

  /** In the plugin's fallback plan a usable Groq-Simple is called twice when everything fails. */
  lemma GroqSimpleCalledTwice(ps: seq<ProviderInfo>, pref: nat, vision: bool, i: nat)
    requires i < |ps| && i != pref && ps[i].available && (!vision || ps[i].vision)
    requires ps[i].name == "Groq-Simple"
    ensures var plan := FallbackPlan(ps, pref, vision);
      exists x, y | 0 <= x < y < |plan| :: plan[x] == i && plan[y] == i
  {
    assert PriorityOrder[3] == "Groq-Simple";
    LastResortRevisits(ps, pref, vision, PriorityOrder, i);
    assert FallbackPlan(ps, pref, vision) == PlanFor(ps, pref, vision, PriorityOrder);
  }

  /** The three relationship bands of `getResponse`, and the neutral middle. */
  datatype Band = Enemy | Cold | Neutral | Friend

  function BandOf(score: int): Band
  {
    if score <= 20 then Enemy else if score <= 40 then Cold else if score >= 80 then Friend else Neutral
  }

  /** The status line for a relationship score; empty in the neutral band. */
  function BandText(score: int): (t: string)
    ensures t == [] <==> BandOf(score) == Neutral
  {
    match BandOf(score)
    case Enemy => "СТАТУС: ВРАГ (" + IntString(score) + "/100). Отвечай грубо, с сарказмом."
    case Cold => "СТАТУС: ХОЛОД (" + IntString(score) + "/100). Язви, не доверяй."
    case Friend => "СТАТУС: БРАТАН (" + IntString(score) + "/100). Поддерживай, шути по-доброму."
    case Neutral => ""
  }

  /** The bands partition the scores in increasing order: the band never drops as the score rises. */
  lemma BandMonotone(x: int, y: int)
    requires x <= y
    ensures BandRank(BandOf(x)) <= BandRank(BandOf(y))
  {
  }

  function BandRank(b: Band): nat
  {
    match b
    case Enemy => 0
    case Cold => 1
    case Neutral => 2
    case Friend => 3
  }

  const DossierHead := "\n--- ДОСЬЕ ---\nФакты: "

  /** The dossier block of the prompt: empty without a profile. */
  function Dossier(profile: Option<UserProfile>): (d: string)
    ensures profile.None? <==> d == []
    ensures profile.Some? ==> StartsWith(d, DossierHead + profile.value.facts + "\n" + BandText(profile.value.relationship))
  {
    match profile
    case None => ""
    case Some(p) =>
      var d := DossierHead + p.facts + "\n" + BandText(p.relationship) + "\n-----------------\n";
      assert d[..|DossierHead + p.facts + "\n" + BandText(p.relationship)|]
          == DossierHead + p.facts + "\n" + BandText(p.relationship);
      d
  }

  /** The conversation part of the prompt: the last 20 messages as `role: text` lines. */
  function ContextString(history: seq<ChatMessage>): string
  {
    HistoryBlock(Window(history, 20))
  }

  const SearchInstruction :=
    "\n\n!!! КРИТИЧЕСКИ ВАЖНО ДЛЯ ПОИСКА !!!\n"
    + "Ты ищешь информацию в интернете через Google Search.\n"
    + "Твой ответ ДОЛЖЕН быть КРАТКИМ и уложиться в 500 символов (максимум 2 сообщения по 255 символов в Minecraft).\n"
    + "1. Изложи найденную информацию КРАТКО и по делу.\n"
    + "2. НЕ добавляй источники, ссылки, упоминания сайтов - это занимает место.\n"
    + "3. НЕ повторяй вопрос пользователя - сразу давай ответ.\n"
    + "4. Выбери самое важное из найденного и изложи сжато.\n"
    + "5. Если информации много - дай краткую выжимку, самое главное.\n"
    + "СТРОГОЕ ОГРАНИЧЕНИЕ: максимум 500 символов (2 сообщения по 255). Адаптируй найденную информацию под этот лимит.\n"

  /** The arguments of `getResponse`. */
  datatype ReplyRequest = ReplyRequest(history: seq<ChatMessage>, message: string, sender: string,
                                       profile: Option<UserProfile>, spontaneous: bool, search: bool)

  /**
   * The main prompt: `Prompts.getMainChatPrompt(isSpontaneous, message,
   * context, personalInfo, sender)`, a template outside this model passed as
   * `template`, followed by the search instruction when searching.
   */
  function FullPrompt(req: ReplyRequest, template: (bool, string, string, string, string) -> string): string
  {
    template(req.spontaneous, req.message, ContextString(req.history), Dossier(req.profile), req.sender)
    + (if req.search then SearchInstruction else "")
  }

  /** The options of the main reply: 400 tokens when searching, else 2500. */
  function ReplyOptions(systemPrompt: string, search: bool): (o: GenerateOptions)
    ensures o.maxTokens == Some(if search then 400 else 2500)
    ensures o.requiresSearch == Some(search) && o.systemPrompt == Some(systemPrompt)
  {
    DefaultOptions.(systemPrompt := Some(systemPrompt), maxTokens := Some(if search then 400 else 2500),
                    temperature := Some(0.9), requiresSearch := Some(search))
  }

  /**
   * What a provider of name `name` is sent: "Groq" and "DeepSeek" get the
   * system prompt in the options; every other provider, Groq-Simple included,
   * gets it in front of the prompt and none in the options.
   */
  function PromptFor(name: string, systemPrompt: string, fullPrompt: string, options: GenerateOptions)
    : (sent: (string, GenerateOptions))
    ensures name == "Groq" || name == "DeepSeek" ==> sent == (fullPrompt, options)
    ensures name != "Groq" && name != "DeepSeek" ==>
      sent.0 == systemPrompt + "\n\n" + fullPrompt && sent.1 == options.(systemPrompt := None)
  {
    if name == "Groq" || name == "DeepSeek" then (fullPrompt, options)
    else (systemPrompt + "\n\n" + fullPrompt, options.(systemPrompt := None))
  }

  /** Where a search reply longer than 510 characters is cut. */
  function SearchCut(reply: string): (c: nat)
    requires |reply| > 510
    ensures 450 < c <= 507
    ensures c < 507 ==> reply[c] == ' ' && forall k | c < k <= 507 :: reply[k] != ' '
    ensures (forall k | 450 < k <= 507 :: reply[k] != ' ') ==> c == 507
    ensures (exists k | 450 < k <= 507 :: reply[k] == ' ') ==> reply[c] == ' '
  {
    BreakAt(reply, 507, 450)
  }

  /**
   * The reply handed back by the provider call: a search reply longer than 510
   * characters becomes its prefix up to the cut plus "..."; anything else is
   * returned unchanged.
   */
  function ShapeReply(reply: string, search: bool): (r: string)
    ensures !search || |reply| <= 510 ==> r == reply
    ensures search ==> |r| <= 510
    ensures search && |reply| > 510 ==> r == reply[..SearchCut(reply)] + "..."
  {
    if search && |reply| > 510 then reply[..SearchCut(reply)] + "..." else reply
  }

  /** A cut search reply keeps a prefix of at least 451 characters and ends in "...". */
  lemma CutReplyKeepsPrefix(reply: string)
    requires |reply| > 510
    ensures var r := ShapeReply(reply, true);
      451 <= |r| - 3 && StartsWith(reply, r[..|r| - 3]) && r[|r| - 3..] == "..."
  {
    var r := ShapeReply(reply, true);
    var c := SearchCut(reply);
    assert r[..|r| - 3] == reply[..c];
  }

  /** One provider call of the main reply: build the prompt for its name, call it, shape the text. */
  function ReplyAttempt(ps: seq<ProviderInfo>, gen: (nat, nat, string, GenerateOptions) -> Result<string, BotError>,
                        systemPrompt: string, fullPrompt: string, search: bool, i: nat, k: nat)
    : (r: Result<string, BotError>)
    ensures r.Ok? && search ==> |r.value| <= 510
  {
    var name := if i < |ps| then ps[i].name else "";
    var sent := PromptFor(name, systemPrompt, fullPrompt, ReplyOptions(systemPrompt, search));
    match gen(i, k, sent.0, sent.1)
    case Ok(text) => Ok(ShapeReply(text, search))
    case Err(e) => Err(e)
  }

  /** The provider call `getResponse` hands to the fallback run. */
  function ReplyTask(ps: seq<ProviderInfo>, gen: (nat, nat, string, GenerateOptions) -> Result<string, BotError>,
                     systemPrompt: string, fullPrompt: string, search: bool): (nat, nat) -> Result<string, BotError>
  {
    (i: nat, k: nat) => ReplyAttempt(ps, gen, systemPrompt, fullPrompt, search, i, k)
  }

  /**
   * `getResponse(history, message, sender, profile, isSpontaneous,
   * requiresSearch)`: the fallback run of the main reply task, without vision.
   */
  method GetResponse(ps: seq<ProviderInfo>, req: ReplyRequest, systemPrompt: string,
                     template: (bool, string, string, string, string) -> string,
                     gen: (nat, nat, string, GenerateOptions) -> Result<string, BotError>)
    returns (r: Result<string, BotError>, invoked: seq<nat>)
    ensures FallbackRun(ps, ReplyTask(ps, gen, systemPrompt, FullPrompt(req, template), req.search), false, req.search)
      == Run(r, |invoked|)
    ensures IsPrefix(invoked, Candidates(ps, false, req.search))
    ensures r.Ok? && req.search ==> |r.value| <= 510
  {
    var fullPrompt := FullPrompt(req, template);
    var task := ReplyTask(ps, gen, systemPrompt, fullPrompt, req.search);
    r, invoked := ExecuteWithFallback(ps, task, false, req.search);
    FallbackReturnsACall(ps, task, false, req.search);
  }

  /** The options of `shouldAnswer`: the defaults with 10 tokens. */
  const YesNoOptions := DefaultOptions.(maxTokens := Some(10))

  /** `result.toUpperCase().contains("YES")`. */
  predicate SaysYes(reply: string)
  {
    Contains(ToUpper(reply), "YES")
  }

  /** Upper-casing after lower-casing is upper-casing. */
  lemma UpperOfLower(s: string)
    ensures ToUpper(ToLower(s)) == ToUpper(s)
  {
    assert forall k | 0 <= k < |s| :: UpperChar(LowerChar(s[k])) == UpperChar(s[k]);
  }

  /** The YES test ignores letter case, and "yes" inside another word counts too. */
  lemma SaysYesIgnoresCase(reply: string, other: string)
    requires EqualsIgnoreCase(reply, other)
    ensures SaysYes(reply) <==> SaysYes(other)
    ensures SaysYes("eyes") && SaysYes("Yes.")
  {
    assert ToLower(reply) == ToLower(other);
    UpperOfLower(reply);
    UpperOfLower(other);
    assert ToUpper("eyes")[1..4] == "YES";
    assert OccursAt(ToUpper("eyes"), "YES", 1);
    assert ToUpper("Yes.")[0..3] == "YES";
    assert OccursAt(ToUpper("Yes."), "YES", 0);
  }

  /** A provider call of the fallback path of `shouldAnswer`: it is the run's `k + 1`-th call overall. */
  function YesNoAttempt(gen: (nat, nat, string, GenerateOptions) -> Result<string, BotError>, prompt: string,
                        i: nat, k: nat): Result<string, BotError>
  {
    gen(i, k + 1, prompt, YesNoOptions)
  }

  function MapYes(outcome: Result<string, BotError>): (r: Result<bool, BotError>)
    ensures r.Ok? <==> outcome.Ok?
    ensures outcome.Ok? ==> r.value == SaysYes(outcome.value)
    ensures outcome.Err? ==> r.error == outcome.error
  {
    match outcome
    case Ok(text) => Ok(SaysYes(text))
    case Err(e) => Err(e)
  }

  /**
   * `shouldAnswer(historyBlock)` with `prompt` the rendered YES/NO template:
   * ask the simple provider; when that call fails, run the same request
   * through the fallback. The answer is whether the reply contains "YES".
   */
  method ShouldAnswer(ps: seq<ProviderInfo>, prompt: string,
                      gen: (nat, nat, string, GenerateOptions) -> Result<string, BotError>)
    returns (r: Result<bool, BotError>, invoked: seq<nat>)
    ensures SelectSimpleProvider(ps).None? ==> r == Err(NoProviders) && invoked == []
    ensures SelectSimpleProvider(ps).Some? ==>
      var simple := SelectSimpleProvider(ps).value;
      |invoked| >= 1 && invoked[0] == simple
      && match gen(simple, 0, prompt, YesNoOptions)
         case Ok(text) => r == Ok(SaysYes(text)) && invoked == [simple]
         case Err(_) =>
           var run := FallbackRun(ps, (i: nat, k: nat) => YesNoAttempt(gen, prompt, i, k), false, false);
           r == MapYes(run.outcome) && |invoked| == 1 + run.calls && IsPrefix(invoked[1..], Candidates(ps, false, false))
  {
    var selected := SelectSimpleProvider(ps);
    if selected.None? {
      return Err(NoProviders), [];
    }
    var simple := selected.value;
    var first := gen(simple, 0, prompt, YesNoOptions);
    if first.Ok? {
      return Ok(SaysYes(first.value)), [simple];
    }
    var outcome, fallbackCalls := ExecuteWithFallback(ps, (i: nat, k: nat) => YesNoAttempt(gen, prompt, i, k), false, false);
    r := MapYes(outcome);
    invoked := [simple] + fallbackCalls;
  }

  /** A fallback run starts with the selected provider. */
  lemma CandidatesStartWithSelected(ps: seq<ProviderInfo>, vision: bool, search: bool)
    requires SelectProvider(ps, vision, search).Some?
    ensures var c := Candidates(ps, vision, search); |c| >= 1 && c[0] == SelectProvider(ps, vision, search).value
  {
  }

  /**
   * With only DeepSeek keys the simple provider and the fallback's selected
   * provider are both DeepSeek, so a failing `shouldAnswer` asks it twice.
   */
  lemma ShouldAnswerRepeatsProvider(deepseek: seq<string>, gemma: GemmaCaps)
    requires |deepseek| > 0
    ensures var ps := JavaRoster([], [], deepseek, gemma);
      SelectSimpleProvider(ps) == Some(0) && SelectProvider(ps, false, false) == Some(0)
  {
    var ps := JavaRoster([], [], deepseek, gemma);
    assert |ps| == 1;
  }

  /** The options of `analyzeUserImmediate`: 1000 tokens and a JSON reply. */
  const AnalyzeOptions := DefaultOptions.(maxTokens := Some(1000), expectJson := Some(true))

  /**
   * `analyzeUserImmediate(lastMessages, profile)` up to the reply text, with
   * `prompt` the rendered analysis template: the fallback run of one request
   * with the analysis options. Parsing the reply is not part of this model.
   */
  method AnalyzeUserImmediate(ps: seq<ProviderInfo>, prompt: string,
                              gen: (nat, nat, string, GenerateOptions) -> Result<string, BotError>)
    returns (r: Result<string, BotError>, invoked: seq<nat>)
    ensures FallbackRun(ps, (i: nat, k: nat) => gen(i, k, prompt, AnalyzeOptions), false, false) == Run(r, |invoked|)
    ensures r.Ok? ==> exists j | 0 <= j < |invoked| :: r == gen(invoked[j], j, prompt, AnalyzeOptions)
  {
    var task := (i: nat, k: nat) => gen(i, k, prompt, AnalyzeOptions);
    r, invoked := ExecuteWithFallback(ps, task, false, false);
    if r.Ok? {
      var cands := Candidates(ps, false, false);
      RunFromSpec(cands, task, 0, AllProvidersFailed);
      assert r == gen(invoked[|invoked| - 1], |invoked| - 1, prompt, AnalyzeOptions);
    }
  }
}
