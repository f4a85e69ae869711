/**
 * The plugin's AI providers (BaseProvider, GeminiProvider, GroqProvider,
 * DeepSeekProvider): a list of API keys with a rotating cursor, and a
 * `generate` that sends one HTTP request per attempt and moves to the next key
 * on HTTP 429. The network is an oracle from (request, attempt number) to reply.
 */
module JavaProviders {
  import opened Wrappers
  import opened Text
  import opened Gateway

  /** BaseProvider.GenerateOptions; `requiresSearch` is the flag AIManager sets on it. */
  datatype GenerateOptions = GenerateOptions(
    systemPrompt: Option<string>,
    maxTokens: Option<int>,
    temperature: Option<real>,
    expectJson: Option<bool>,
    requiresSearch: Option<bool>)

  /** A fresh GenerateOptions: no system prompt, 2500 tokens, temperature 0.9, no JSON. */
  const DefaultOptions := GenerateOptions(None, Some(2500), Some(0.9), Some(false), None)

  /** The providers whose source is part of the model. */
  datatype Kind = Gemini | Groq(simple: bool) | DeepSeek

  function KindName(kind: Kind): string
  {
    match kind
    case Gemini => "Gemini"
    case Groq(simple) => "Groq" + (if simple then "-Simple" else "")
    case DeepSeek => "DeepSeek"
  }

  /** The chat model requested from Groq or DeepSeek (Gemini's is part of its URL). */
  function ChatModel(kind: Kind): string
  {
    match kind
    case Groq(simple) => if simple then "llama-3.1-8b-instant" else "llama-3.3-70b-versatile"
    case _ => "deepseek-chat"
  }

  predicate KindSupportsVision(kind: Kind)
  {
    kind.Gemini? || kind.Groq?
  }

  predicate KindSupportsSearch(kind: Kind)
  {
    kind.Gemini?
  }

  /** The description of a provider of `kind` holding `keys`. */
  function KindInfo(kind: Kind, keys: seq<string>): ProviderInfo
  {
    ProviderInfo(KindName(kind), |keys| > 0, KindSupportsVision(kind), KindSupportsSearch(kind))
  }

  /** One chat message of an OpenAI-style request. */
  datatype Message = Message(role: string, content: string)

  /** The HTTP request a provider sends: the key and the JSON body's fields. */
  datatype Request =
    | GeminiRequest(key: string, text: string, maxOutputTokens: int, temperature: real, googleSearch: bool)
    | ChatRequest(key: string, model: string, messages: seq<Message>, maxTokens: int, temperature: real,
                  jsonObjectFormat: bool, streamFalse: bool)
  {
    /** `maxOutputTokens` for Gemini, `max_tokens` for the others. */
    function TokenLimit(): int
    {
      if GeminiRequest? then maxOutputTokens else maxTokens
    }
  }

  /** The parts of a parsed response body the providers read. */
  datatype Candidate = Candidate(finishReason: Option<string>, partTexts: Option<seq<Option<string>>>)
  datatype Choice = Choice(content: Option<string>)
  datatype Json = Json(candidates: Option<seq<Candidate>>, choices: Option<seq<Choice>>)

  /** What `client.newCall(request).execute()` yields. */
  datatype HttpReply = Response(code: int, body: string, json: Json) | IOFailure(message: Option<string>)

  /** The exceptions the providers and the gateway throw. */
  datatype BotError =
    | Unavailable(provider: string)
    | KeysExhausted(provider: string)
    | RateLimited(provider: string)
    | InsufficientBalance(provider: string)
    | ApiError(provider: string, code: int, body: string)
    | Blocked(provider: string)
    | EmptyResponse(provider: string)
    | ProxyError(provider: string, detail: string)
    | NetworkError(provider: string, message: Option<string>)
    | NoProviders
    | AllProvidersFailed

  /** OkHttp's `isSuccessful`. */
  predicate IsSuccessful(code: int)
  {
    200 <= code < 300
  }

  /** The messages of an OpenAI-style request: a system message only for a non-empty prompt. */
  function ChatMessages(systemPrompt: Option<string>, prompt: string): (msgs: seq<Message>)
    ensures 1 <= |msgs| <= 2
    ensures msgs[|msgs| - 1] == Message("user", prompt)
    ensures |msgs| == 2 <==> systemPrompt.Some? && systemPrompt.value != ""
    ensures |msgs| == 2 ==> msgs[0] == Message("system", systemPrompt.value)
  {
    if systemPrompt.Some? && systemPrompt.value != "" then
      [Message("system", systemPrompt.value), Message("user", prompt)]
    else
      [Message("user", prompt)]
  }

  /** The request each provider builds for one attempt with `key`. */
  function BuildRequest(kind: Kind, key: string, prompt: string, options: GenerateOptions): (req: Request)
    ensures req.key == key
    ensures req.GeminiRequest? <==> kind.Gemini?
    ensures req.GeminiRequest? ==> req.text == prompt && (req.googleSearch <==> options.requiresSearch == Some(true))
    ensures req.ChatRequest? ==> req.model == ChatModel(kind) && req.messages == ChatMessages(options.systemPrompt, prompt)
    ensures req.ChatRequest? ==> (req.jsonObjectFormat <==> kind.Groq? && options.expectJson == Some(true))
    ensures req.ChatRequest? ==> (req.streamFalse <==> kind.DeepSeek?)
    ensures options.maxTokens.None? ==> req.TokenLimit() == (if kind.Groq? then 2048 else 2500)
    ensures options.maxTokens.Some? ==> req.TokenLimit() == options.maxTokens.value
    ensures req.temperature == options.temperature.GetOr(0.9)
  {
    var temperature := options.temperature.GetOr(0.9);
    match kind
    case Gemini =>
      GeminiRequest(key, prompt, options.maxTokens.GetOr(2500), temperature, options.requiresSearch == Some(true))
    case Groq(_) =>
      ChatRequest(key, ChatModel(kind), ChatMessages(options.systemPrompt, prompt), options.maxTokens.GetOr(2048),
                  temperature, options.expectJson == Some(true), false)
    case DeepSeek =>
      ChatRequest(key, ChatModel(kind), ChatMessages(options.systemPrompt, prompt), options.maxTokens.GetOr(2500),
                  temperature, false, true)
  }

  /** The text of a successful reply, or the exception for a blocked or empty one. */
  function ReadReply(kind: Kind, json: Json): (r: Result<string, BotError>)
    ensures r.Err? ==> r.error == Blocked(KindName(kind)) || r.error == EmptyResponse(KindName(kind))
    ensures r.Err? && r.error.Blocked? ==> kind.Gemini?
    ensures kind.Gemini? ==> (r.Ok? <==>
      && json.candidates.Some? && |json.candidates.value| > 0
      && json.candidates.value[0].finishReason != Some("SAFETY")
      && json.candidates.value[0].finishReason != Some("RECITATION")
      && json.candidates.value[0].partTexts.Some? && |json.candidates.value[0].partTexts.value| > 0
      && json.candidates.value[0].partTexts.value[0].Some?)
    ensures !kind.Gemini? ==> (r.Ok? <==>
      json.choices.Some? && |json.choices.value| > 0 && json.choices.value[0].content.Some?)
    ensures kind.Gemini? && r.Ok? ==> r.value == json.candidates.value[0].partTexts.value[0].value
    ensures !kind.Gemini? && r.Ok? ==> r.value == json.choices.value[0].content.value
  {
    var name := KindName(kind);
    if kind.Gemini? then
      if json.candidates.Some? && |json.candidates.value| > 0 then
        var c := json.candidates.value[0];
        if c.finishReason == Some("SAFETY") || c.finishReason == Some("RECITATION") then Err(Blocked(name))
        else if c.partTexts.Some? && |c.partTexts.value| > 0 && c.partTexts.value[0].Some? then Ok(c.partTexts.value[0].value)
        else Err(EmptyResponse(name))
      else Err(EmptyResponse(name))
    else
      if json.choices.Some? && |json.choices.value| > 0 && json.choices.value[0].content.Some? then
        Ok(json.choices.value[0].content.value)
      else Err(EmptyResponse(name))
  }

  /** The exception for a non-2xx status other than 429. */
  function StatusError(kind: Kind, code: int, body: string): (e: BotError)
    ensures e.InsufficientBalance? <==> kind.DeepSeek? && code == 402
    ensures !e.InsufficientBalance? ==> e == ApiError(KindName(kind), code, body)
  {
    if kind.DeepSeek? && code == 402 then InsufficientBalance(KindName(kind))
    else ApiError(KindName(kind), code, body)
  }

  /** The exception for an IOException: a proxy error when the message names 403 and CONNECT. */
  function TransportError(kind: Kind, message: Option<string>): (e: BotError)
    ensures e.ProxyError? <==> message.Some? && Contains(message.value, "403") && Contains(message.value, "CONNECT")
    ensures e.ProxyError? || e == NetworkError(KindName(kind), message)
  {
    if message.Some? && Contains(message.value, "403") && Contains(message.value, "CONNECT") then
      ProxyError(KindName(kind), message.value)
    else
      NetworkError(KindName(kind), message)
  }

  /** The outcome of `generate`, the key cursor it leaves, and the key indices it tried. */
  datatype Attempts = Attempts(outcome: Result<string, BotError>, cursor: nat, used: seq<nat>)

  /**
   * `generate(prompt, options, retryCount)` from key cursor `cursor`: one
   * request with the current key; on 429 the key is rotated and, when the
   * rotation changed the cursor and fewer than `|keys| - 1` retries were made,
   * the call is repeated; every other reply ends the call.
   */
  function GenerateSpec(kind: Kind, keys: seq<string>, cursor: nat, prompt: string, options: GenerateOptions,
                        retryCount: nat, net: (Request, nat) -> HttpReply): (a: Attempts)
    decreases |keys| - retryCount
  {
    if |keys| == 0 then Attempts(Err(Unavailable(KindName(kind))), cursor, [])
    else if retryCount >= |keys| then Attempts(Err(KeysExhausted(KindName(kind))), cursor, [])
    else
      var index := cursor % |keys|;
      match net(BuildRequest(kind, keys[index], prompt, options), retryCount)
      case IOFailure(message) => Attempts(Err(TransportError(kind, message)), cursor, [index])
      case Response(code, body, json) =>
        if IsSuccessful(code) then Attempts(ReadReply(kind, json), cursor, [index])
        else if code == 429 then
          var next := (cursor + 1) % |keys|;
          if next != cursor && retryCount < |keys| - 1 then
            var rest := GenerateSpec(kind, keys, next, prompt, options, retryCount + 1, net);
            Attempts(rest.outcome, rest.cursor, [index] + rest.used)
          else
            Attempts(Err(RateLimited(KindName(kind))), next, [index])
        else Attempts(Err(StatusError(kind, code, body)), cursor, [index])
  }

  /** The next cursor position, written without `%`. */
  lemma NextCursor(cursor: nat, n: nat)
    requires cursor < n
    ensures (cursor + 1) % n == (if cursor + 1 < n then cursor + 1 else 0)
  {
  }

  /** One step of `GenerateSpec` from a valid cursor, with `%` worked out. */
  lemma SpecStep(kind: Kind, keys: seq<string>, cursor: nat, prompt: string,
                 options: GenerateOptions, retryCount: nat, net: (Request, nat) -> HttpReply)
    requires cursor < |keys| && retryCount < |keys|
    ensures var a := GenerateSpec(kind, keys, cursor, prompt, options, retryCount, net);
      var reply := net(BuildRequest(kind, keys[cursor], prompt, options), retryCount);
      var next := if cursor + 1 < |keys| then cursor + 1 else 0;
      if reply.Response? && reply.code == 429 then
        if next != cursor && retryCount < |keys| - 1 then
          var rest := GenerateSpec(kind, keys, next, prompt, options, retryCount + 1, net);
          a == Attempts(rest.outcome, rest.cursor, [cursor] + rest.used)
        else
          a == Attempts(Err(RateLimited(KindName(kind))), next, [cursor])
      else
        a.used == [cursor] && a.cursor == cursor
        && (a.outcome.Ok? || (!a.outcome.error.KeysExhausted? && !a.outcome.error.RateLimited?))
  {
    assert cursor % |keys| == cursor;
    NextCursor(cursor, |keys|);
    var a := GenerateSpec(kind, keys, cursor, prompt, options, retryCount, net);
    match net(BuildRequest(kind, keys[cursor], prompt, options), retryCount)
    case IOFailure(message) =>
      assert a == Attempts(Err(TransportError(kind, message)), cursor, [cursor]);
    case Response(code, body, json) =>
      if IsSuccessful(code) {
        assert a == Attempts(ReadReply(kind, json), cursor, [cursor]);
      } else if code != 429 {
        assert a == Attempts(Err(StatusError(kind, code, body)), cursor, [cursor]);
      }
  }

  /**
   * The keys tried are consecutive positions from the cursor, so no key is
   * tried twice in one call, and there are at most `|keys| - retryCount` of them.
   */
  lemma {:induction false} TriedKeysConsecutive(kind: Kind, keys: seq<string>, cursor: nat, prompt: string,
                                                options: GenerateOptions, retryCount: nat, net: (Request, nat) -> HttpReply)
    requires cursor < |keys| && retryCount <= |keys|
    ensures var a := GenerateSpec(kind, keys, cursor, prompt, options, retryCount, net);
      && |a.used| <= |keys| - retryCount
      && forall j | 0 <= j < |a.used| :: a.used[j] == (if cursor + j < |keys| then cursor + j else cursor + j - |keys|)
    decreases |keys| - retryCount
  {
    var n := |keys|;
    var a := GenerateSpec(kind, keys, cursor, prompt, options, retryCount, net);
    if retryCount < n {
      SpecStep(kind, keys, cursor, prompt, options, retryCount, net);
      var reply := net(BuildRequest(kind, keys[cursor], prompt, options), retryCount);
      var next := if cursor + 1 < n then cursor + 1 else 0;
      if reply.Response? && reply.code == 429 && next != cursor && retryCount < n - 1 {
        TriedKeysConsecutive(kind, keys, next, prompt, options, retryCount + 1, net);
        var rest := GenerateSpec(kind, keys, next, prompt, options, retryCount + 1, net);
        assert a.used == [cursor] + rest.used;
        forall j | 1 <= j < |a.used|
          ensures a.used[j] == (if cursor + j < n then cursor + j else cursor + j - n)
        {
          assert a.used[j] == rest.used[j - 1];
        }
      }
    }
  }

  /** No key index is tried twice by one `generate` call. */
  lemma TriedKeysDistinct(kind: Kind, keys: seq<string>, cursor: nat, prompt: string,
                          options: GenerateOptions, net: (Request, nat) -> HttpReply)
    requires cursor < |keys|
    ensures var a := GenerateSpec(kind, keys, cursor, prompt, options, 0, net);
      forall i, j | 0 <= i < j < |a.used| :: a.used[i] != a.used[j]
  {
    TriedKeysConsecutive(kind, keys, cursor, prompt, options, 0, net);
  }

  /** Started from retry 0, `generate` never reports "all keys exhausted". */
  lemma {:induction false} NeverKeysExhausted(kind: Kind, keys: seq<string>, cursor: nat, prompt: string,
                                              options: GenerateOptions, retryCount: nat, net: (Request, nat) -> HttpReply)
    requires retryCount < |keys| || |keys| == 0
    requires |keys| == 0 || cursor < |keys|
    ensures var a := GenerateSpec(kind, keys, cursor, prompt, options, retryCount, net);
      a.outcome.Ok? || !a.outcome.error.KeysExhausted?
    decreases |keys| - retryCount
  {
    if |keys| > 0 {
      SpecStep(kind, keys, cursor, prompt, options, retryCount, net);
      var reply := net(BuildRequest(kind, keys[cursor], prompt, options), retryCount);
      var next := if cursor + 1 < |keys| then cursor + 1 else 0;
      if reply.Response? && reply.code == 429 && next != cursor && retryCount < |keys| - 1 {
        NeverKeysExhausted(kind, keys, next, prompt, options, retryCount + 1, net);
      }
    }
  }

  /** Every reply the network gives is an HTTP 429. */
  ghost predicate AlwaysRateLimited(net: (Request, nat) -> HttpReply)
  {
    forall req, k :: net(req, k).Response? && net(req, k).code == 429
  }

  /**
   * When every key is rate-limited, a call from retry `r` tries `|keys| - r`
   * keys, rotating after each, and reports the rate limit.
   */
  lemma {:induction false} RateLimitedRun(kind: Kind, keys: seq<string>, cursor: nat, prompt: string,
                                          options: GenerateOptions, r: nat, net: (Request, nat) -> HttpReply)
    requires AlwaysRateLimited(net)
    requires cursor < |keys| && r < |keys|
    ensures var a := GenerateSpec(kind, keys, cursor, prompt, options, r, net);
      && a.outcome == Err(RateLimited(KindName(kind)))
      && |a.used| == |keys| - r
      && a.cursor == (if cursor + |keys| - r < |keys| then cursor + |keys| - r else cursor - r)
    decreases |keys| - r
  {
    var n := |keys|;
    SpecStep(kind, keys, cursor, prompt, options, r, net);
    var reply := net(BuildRequest(kind, keys[cursor], prompt, options), r);
    assert reply.Response? && reply.code == 429;
    var next := if cursor + 1 < n then cursor + 1 else 0;
    if next != cursor && r < n - 1 {
      RateLimitedRun(kind, keys, next, prompt, options, r + 1, net);
      if cursor + 1 < n {
        assert next + n - (r + 1) == cursor + n - r;
      }
    } else if n == 1 {
      assert cursor == 0 && next == 0;
    } else {
      assert r == n - 1;
      assert cursor + n - r == cursor + 1;
    }
  }

  /**
   * When every key is rate-limited, `generate` tries each key exactly once,
   * fails with the rate-limit error, and leaves the cursor where it started.
   */
  lemma AllKeysRateLimited(kind: Kind, keys: seq<string>, cursor: nat, prompt: string,
                           options: GenerateOptions, net: (Request, nat) -> HttpReply)
    requires AlwaysRateLimited(net)
    requires cursor < |keys|
    ensures var a := GenerateSpec(kind, keys, cursor, prompt, options, 0, net);
      && a.outcome == Err(RateLimited(KindName(kind)))
      && |a.used| == |keys|
      && a.cursor == cursor
  {
    RateLimitedRun(kind, keys, cursor, prompt, options, 0, net);
  }

  /** Any reply but a 429 ends the call after one request, without moving the cursor. */
  lemma OnlyRateLimitRotates(kind: Kind, keys: seq<string>, cursor: nat, prompt: string,
                             options: GenerateOptions, net: (Request, nat) -> HttpReply)
    requires |keys| > 0
    requires var reply := net(BuildRequest(kind, keys[cursor % |keys|], prompt, options), 0);
      !(reply.Response? && reply.code == 429)
    ensures var a := GenerateSpec(kind, keys, cursor, prompt, options, 0, net);
      a.cursor == cursor && |a.used| == 1
  {
  }

  /** A provider object: its fixed kind and keys and the cursor of the key in use. */
  class Provider {
    const kind: Kind
    const keys: seq<string>
    var cursor: nat

    ghost predicate Valid()
      reads this
    {
      if |keys| == 0 then cursor == 0 else cursor < |keys|
    }

    constructor (kind: Kind, keys: seq<string>)
      ensures this.kind == kind && this.keys == keys && cursor == 0 && Valid()
    {
      this.kind := kind;
      this.keys := keys;
      cursor := 0;
    }

    function Name(): string
    {
      KindName(kind)
    }

    /** `isAvailable`: the provider has at least one key. */
    predicate IsAvailable()
    {
      |keys| > 0
    }

    function Info(): ProviderInfo
    {
      KindInfo(kind, keys)
    }

    /** `getCurrentKey`: the key under the cursor, or null without keys. */
    function CurrentKey(): (k: Option<string>)
      reads this
      ensures k.None? <==> !IsAvailable()
      ensures Valid() && k.Some? ==> k.value == keys[cursor]
    {
      if |keys| == 0 then None else Some(keys[cursor % |keys|])
    }

    /** `rotateKey`: advance the cursor cyclically; report whether it moved. */
    method RotateKey() returns (changed: bool)
      requires Valid()
      modifies this
      ensures Valid()
      ensures !IsAvailable() ==> !changed && cursor == old(cursor)
      ensures IsAvailable() ==> cursor == (old(cursor) + 1) % |keys|
      ensures changed <==> cursor != old(cursor)
      ensures changed <==> |keys| > 1
    {
      if |keys| == 0 {
        return false;
      }
      var oldIndex := cursor;
      NextCursor(oldIndex, |keys|);
      var newIndex := (oldIndex + 1) % |keys|;
      cursor := newIndex;
      changed := newIndex != oldIndex;
    }

    /** `generate(prompt, options)`: the whole retry chain from retry 0. */
    method Generate(prompt: string, options: GenerateOptions, net: (Request, nat) -> HttpReply)
      returns (r: Result<string, BotError>, ghost used: seq<nat>)
      requires Valid()
      modifies this
      ensures Valid()
      ensures Attempts(r, cursor, used) == GenerateSpec(kind, keys, old(cursor), prompt, options, 0, net)
    {
      r, used := GenerateFrom(prompt, options, 0, net);
    }

    /** `generate(prompt, options, retryCount)`. */
    method GenerateFrom(prompt: string, options: GenerateOptions, retryCount: nat, net: (Request, nat) -> HttpReply)
      returns (r: Result<string, BotError>, ghost used: seq<nat>)
      requires Valid()
      modifies this
      ensures Valid()
      ensures Attempts(r, cursor, used) == GenerateSpec(kind, keys, old(cursor), prompt, options, retryCount, net)
      decreases |keys| - retryCount
    {
      if !IsAvailable() {
        return Err(Unavailable(Name())), [];
      }
      if retryCount >= |keys| {
        return Err(KeysExhausted(Name())), [];
      }
      var key := CurrentKey();
      var index := cursor % |keys|;
      assert index == cursor;
      var reply := net(BuildRequest(kind, key.value, prompt, options), retryCount);
      ghost var spec := GenerateSpec(kind, keys, cursor, prompt, options, retryCount, net);
      match reply {
        case IOFailure(message) =>
          r, used := Err(TransportError(kind, message)), [index];
        case Response(code, body, json) =>
          if !IsSuccessful(code) {
            if code == 429 {
              var rotated := RotateKey();
              if rotated && retryCount < |keys| - 1 {
                ghost var rest;
                ghost var next := cursor;
                r, rest := GenerateFrom(prompt, options, retryCount + 1, net);
                assert Attempts(r, cursor, rest) == GenerateSpec(kind, keys, next, prompt, options, retryCount + 1, net);
                used := [index] + rest;
                return;
              }
              return Err(RateLimited(Name())), [index];
            }
            return Err(StatusError(kind, code, body)), [index];
          }
          r, used := ReadReply(kind, json), [index];
      }
    }
  }
}
