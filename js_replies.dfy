/**
 * The requests the Telegram bot's providers send and how each of them turns
 * the SDK's or the HTTP API's reply into text or an error: the `apiCall`
 * closures of gemini.js, groq.js, deepseek.js and gemma.js, and their
 * `generateWithSystem` variants.
 *
 * A thrown `Error` is `Err(message)`. What the network returns is a
 * parameter `send(request)`; the two regular expressions that strip a
 * leading "toolcode … print(…)" block and a leading "thought …" paragraph
 * are the parameter `strip`.
 */
module JsReplies {
  import opened Wrappers
  import opened Text

  /** A media attachment: the buffer is there; its MIME type may be empty. */
  datatype Media = Media(mimeType: string)

  /**
   * The `options` of `generate`. A token limit of 0 stands for an absent
   * one, as `options.maxTokens || default` reads both alike; an empty
   * system prompt is an absent one.
   */
  datatype Options = Options(media: Option<Media>, maxTokens: int, jsonMode: bool, expectJson: bool, systemPrompt: string)

  /** `options.mediaBuffer && options.mimeType`. */
  predicate HasMedia(o: Options)
  {
    o.media.Some? && o.media.value.mimeType != ""
  }

  /** `options.maxTokens || fallback`. */
  function TokenLimit(o: Options, fallback: int): (t: int)
    ensures o.maxTokens != 0 ==> t == o.maxTokens
    ensures o.maxTokens == 0 ==> t == fallback
  {
    if o.maxTokens != 0 then o.maxTokens else fallback
  }

  // ---------------------------------------------------------------------
  // Cleaning JSON answers
  // ---------------------------------------------------------------------

  /** `text.replace(/```json/g, '').replace(/```/g, '').trim()`. */
  function Unfence(text: string): string
  {
    JsTrim(RemoveAll(RemoveAll(text, "```json"), "```"))
  }

  /**
   * The slice from the first `{` to the last `}` when the text has both, by
   * JavaScript `substring(first, last + 1)`, which swaps its bounds when the
   * last `}` comes before the first `{`; the text itself otherwise.
   */
  function BraceSlice(text: string): string
  {
    var first := IndexOfChar(text, '{');
    var last := LastIndexOfChar(text, '}');
    if first != -1 && last != -1 then JsSubstring(text, first, last + 1) else text
  }

  /** The `expectJson` clean-up of Groq and DeepSeek: strip the fences, trim, slice the braces. */
  function CleanJson(text: string): string
  {
    BraceSlice(Unfence(text))
  }

  /** With a `{` before a `}`, the slice runs from the first `{` to the last `}` of the text. */
  lemma BraceSliceShape(text: string)
    requires 0 <= IndexOfChar(text, '{') <= LastIndexOfChar(text, '}')
    ensures var r := BraceSlice(text);
      && r == text[IndexOfChar(text, '{')..LastIndexOfChar(text, '}') + 1]
      && |r| >= 1 && r[0] == '{' && r[|r| - 1] == '}'
      && (forall k | 0 <= k < IndexOfChar(text, '{') :: text[k] != '{')
      && (forall k | LastIndexOfChar(text, '}') < k < |text| :: text[k] != '}')
  {
  }

  /** A text that lacks either brace passes unchanged. */
  lemma BraceSliceWithoutBraces(text: string)
    requires (forall k | 0 <= k < |text| :: text[k] != '{') || (forall k | 0 <= k < |text| :: text[k] != '}')
    ensures BraceSlice(text) == text
  {
    if IndexOfChar(text, '{') != -1 {
      assert text[IndexOfChar(text, '{')] == '{';
    }
    if LastIndexOfChar(text, '}') != -1 {
      assert text[LastIndexOfChar(text, '}')] == '}';
    }
  }

  /**
   * When the last `}` comes before the first `{`, JavaScript's `substring`
   * swaps the bounds and the result is what lies between them, which holds
   * neither of those two braces.
   */
  lemma BraceSliceReversed(text: string)
    requires 0 <= LastIndexOfChar(text, '}') && LastIndexOfChar(text, '}') + 1 < IndexOfChar(text, '{')
    ensures BraceSlice(text) == text[LastIndexOfChar(text, '}') + 1..IndexOfChar(text, '{')]
    ensures forall k | 0 <= k < |BraceSlice(text)| :: BraceSlice(text)[k] != '{' && BraceSlice(text)[k] != '}'
  {
  }

  /** Slicing an already sliced object changes nothing. */
  lemma BraceSliceIdempotent(text: string)
    requires 0 <= IndexOfChar(text, '{') <= LastIndexOfChar(text, '}')
    ensures BraceSlice(BraceSlice(text)) == BraceSlice(text)
  {
    BraceSliceShape(text);
    var r := BraceSlice(text);
    assert IndexOfChar(r, '{') == 0;
    assert LastIndexOfChar(r, '}') == |r| - 1;
  }

  /** A text with a non-space character is not blank, whatever follows it. */
  lemma NotBlankAppend(a: string, b: string)
    requires !IsJsBlank(a)
    ensures !IsJsBlank(a + b)
  {
    var k :| 0 <= k < |a| && !IsJsSpace(a[k]);
    assert (a + b)[k] == a[k];
  }

  // ---------------------------------------------------------------------
  // Chat requests (Groq, DeepSeek)
  // ---------------------------------------------------------------------

  datatype Message = Message(role: string, content: string)

  /** A chat-completions request: model, messages, token limit, JSON mode and the MIME type of an attached image. */
  datatype ChatRequest = ChatRequest(model: string, messages: seq<Message>, maxTokens: int, jsonMode: bool, image: Option<string>)

  /** Groq's text request: the prompt as the one user message, in JSON mode when asked. */
  function GroqTextRequest(prompt: string, o: Options): ChatRequest
  {
    ChatRequest("llama-3.3-70b-versatile", [Message("user", prompt)], TokenLimit(o, 2048), o.jsonMode, None)
  }

  /** Groq's vision request: the prompt and the image, to the vision model. */
  function GroqVisionRequest(prompt: string, mimeType: string, o: Options): ChatRequest
  {
    ChatRequest("llama-3.2-90b-vision-preview", [Message("user", prompt)], TokenLimit(o, 2048), false, Some(mimeType))
  }

  /** Groq's `generateWithSystem` request: a system message and a user message. */
  function GroqSystemRequest(systemPrompt: string, userPrompt: string, o: Options): ChatRequest
  {
    ChatRequest("llama-3.3-70b-versatile", [Message("system", systemPrompt), Message("user", userPrompt)], TokenLimit(o, 2048), false, None)
  }

  function GroqVisionOnlyImages(): string
  {
    "Groq поддерживает только изображения для vision"
  }

  /**
   * Groq's `apiCall`: media that is not an image is refused before any
   * call; an image goes to the vision model and its answer is returned as
   * is; a text answer is cleaned up when JSON is expected. A missing
   * answer is the empty string. `send` returns the content of the first
   * choice, if any, or the SDK's error.
   */
  function GroqCall(prompt: string, o: Options, send: ChatRequest -> Result<Option<string>, string>): Result<string, string>
  {
    if HasMedia(o) then
      var mime := o.media.value.mimeType;
      if !StartsWith(mime, "image/") then Err(GroqVisionOnlyImages())
      else match send(GroqVisionRequest(prompt, mime, o))
        case Err(e) => Err(e)
        case Ok(content) => Ok(content.GetOr(""))
    else match send(GroqTextRequest(prompt, o))
      case Err(e) => Err(e)
      case Ok(content) =>
        var text := content.GetOr("");
        Ok(if o.expectJson then CleanJson(text) else text)
  }

  /** Groq's `generateWithSystem` `apiCall`: the answer, or the empty string, never cleaned. */
  function GroqSystemCall(systemPrompt: string, userPrompt: string, o: Options,
                          send: ChatRequest -> Result<Option<string>, string>): (r: Result<string, string>)
    ensures var answer := send(GroqSystemRequest(systemPrompt, userPrompt, o));
      && (r.Err? <==> answer.Err?)
      && (answer.Err? ==> r.error == answer.error)
      && (answer.Ok? && answer.value.Some? ==> r.value == answer.value.value)
      && (answer.Ok? && answer.value.None? ==> r.value == "")
  {
    match send(GroqSystemRequest(systemPrompt, userPrompt, o))
    case Err(e) => Err(e)
    case Ok(content) => Ok(content.GetOr(""))
  }

  /** Groq sends only images to its vision model, and fails for other media without calling. */
  lemma GroqRefusesOtherMedia(prompt: string, o: Options, send: ChatRequest -> Result<Option<string>, string>)
    ensures HasMedia(o) && !StartsWith(o.media.value.mimeType, "image/") ==> GroqCall(prompt, o, send) == Err(GroqVisionOnlyImages())
    ensures HasMedia(o) && StartsWith(o.media.value.mimeType, "image/") && send(GroqVisionRequest(prompt, o.media.value.mimeType, o)).Ok? ==>
      GroqCall(prompt, o, send).Ok?
  {
  }

  /** An answer without JSON clean-up, or without braces, comes back as the model wrote it. */
  lemma GroqTextVerbatim(prompt: string, o: Options, send: ChatRequest -> Result<Option<string>, string>, text: string)
    requires !HasMedia(o) && send(GroqTextRequest(prompt, o)) == Ok(Some(text))
    requires !o.expectJson
    ensures GroqCall(prompt, o, send) == Ok(text)
  {
  }

  // ---------------------------------------------------------------------
  // DeepSeek over HTTP
  // ---------------------------------------------------------------------

  /** `options.systemPrompt` becomes a system message before the user's only when it is not empty. */
  function DeepSeekMessages(prompt: string, systemPrompt: string): (m: seq<Message>)
    ensures |m| >= 1 && m[|m| - 1] == Message("user", prompt)
  {
    (if systemPrompt != "" then [Message("system", systemPrompt)] else []) + [Message("user", prompt)]
  }

  function DeepSeekRequest(prompt: string, o: Options): ChatRequest
  {
    ChatRequest("deepseek-chat", DeepSeekMessages(prompt, o.systemPrompt), TokenLimit(o, 2500), false, None)
  }

  /**
   * How axios failed: an HTTP status with the body's `error.message`, the
   * body's `message` and axios's own message; no response at all; or an
   * error setting the request up.
   */
  datatype HttpFailure =
    | StatusFailure(status: int, errorMessage: Option<string>, dataMessage: Option<string>, axiosMessage: string)
    | NoResponse
    | SetupFailure(message: string)

  /** A response body: `data` may be missing, and so may `choices`; each choice has a content or not. */
  datatype DeepSeekBody = DeepSeekBody(choices: Option<seq<Option<string>>>)

  /** `errorData?.error?.message || errorData?.message || axiosError.message`. */
  function DetailOf(errorMessage: Option<string>, dataMessage: Option<string>, axiosMessage: string): string
  {
    if errorMessage.Some? && errorMessage.value != "" then errorMessage.value
    else if dataMessage.Some? && dataMessage.value != "" then dataMessage.value
    else axiosMessage
  }

  /** The error DeepSeek's `apiCall` throws for a failed request: the provider's name, then what went wrong. */
  function FailureMessage(f: HttpFailure): (m: string)
    ensures StartsWith(m, "DeepSeek: ")
  {
    var prefix := "DeepSeek: ";
    assert (prefix + FailureDetail(f))[..|prefix|] == prefix;
    prefix + FailureDetail(f)
  }

  /** What went wrong, by status: 429, 402, 400 and other statuses carry the body's detail, 401 does not. */
  function FailureDetail(f: HttpFailure): string
  {
    match f
    case StatusFailure(status, e, d, a) =>
      var detail := DetailOf(e, d, a);
      if status == 429 then "Rate limit exceeded (429). " + detail
      else if status == 402 then "Insufficient balance (402). " + detail
      else if status == 401 then "Invalid API key (401)"
      else if status == 400 then "Bad request (400). " + detail
      else "API error (" + IntString(status) + "). " + detail
    case NoResponse => "Network error - no response from server"
    case SetupFailure(message) => message
  }

  /**
   * DeepSeek's `apiCall` with the key in use: an empty key and any media
   * are refused before the request; a failed request becomes its error;
   * a body without choices and a blank answer are errors; a JSON answer is
   * cleaned up.
   */
  function DeepSeekCall(key: string, prompt: string, o: Options,
                        send: ChatRequest -> Result<Option<DeepSeekBody>, HttpFailure>): Result<string, string>
  {
    if key == "" then Err("DeepSeek: Нет доступного ключа")
    else if HasMedia(o) then Err("DeepSeek: Vision не поддерживается в текущей версии")
    else match send(DeepSeekRequest(prompt, o))
      case Err(f) => Err(FailureMessage(f))
      case Ok(data) =>
        if data.None? || data.value.choices.None? || |data.value.choices.value| == 0 then Err("DeepSeek: Пустой ответ от API")
        else
          var text := data.value.choices.value[0].GetOr("");
          if IsJsBlank(text) then Err("DeepSeek: Ответ пустой")
          else Ok(if o.expectJson then CleanJson(text) else text)
  }

  /** DeepSeek's `generateWithSystem`: `generate` with the system prompt put into the options. */
  function DeepSeekSystemOptions(systemPrompt: string, o: Options): Options
  {
    o.(systemPrompt := systemPrompt)
  }

  /**
   * A system message is sent exactly when the system prompt is not empty,
   * so `generateWithSystem` with an empty one sends the user message alone,
   * where Groq sends an empty system message.
   */
  lemma DeepSeekSystemMessage(systemPrompt: string, userPrompt: string, o: Options)
    ensures var m := DeepSeekRequest(userPrompt, DeepSeekSystemOptions(systemPrompt, o)).messages;
      && (systemPrompt != "" <==> |m| == 2)
      && (systemPrompt != "" ==> m[0] == Message("system", systemPrompt))
    ensures |GroqSystemRequest(systemPrompt, userPrompt, o).messages| == 2
  {
  }

  /** A 429 is a quota error whatever its detail, so `executeWithRetry` moves to the next key. */
  lemma RateLimitIsQuota(detail: string, e: Option<string>, d: Option<string>)
    ensures var m := ToLower(FailureMessage(StatusFailure(429, e, d, detail)));
      Contains(m, "429")
  {
    var f := StatusFailure(429, e, d, detail);
    var m := FailureMessage(f);
    var rest := FailureDetail(f);
    assert rest == "Rate limit exceeded (429). " + DetailOf(e, d, detail);
    assert rest[21..24] == "429";
    assert m == "DeepSeek: " + rest;
    assert m[31..34] == rest[21..24];
    assert ToLower(m)[31..34] == "429";
    assert OccursAt(ToLower(m), "429", 31);
  }

  /** A successful DeepSeek answer without JSON clean-up is never blank. */
  lemma DeepSeekAnswerNotBlank(key: string, prompt: string, o: Options,
                               send: ChatRequest -> Result<Option<DeepSeekBody>, HttpFailure>)
    requires !o.expectJson && DeepSeekCall(key, prompt, o, send).Ok?
    ensures !IsJsBlank(DeepSeekCall(key, prompt, o, send).value)
  {
  }

  /** The request is made only with a key and without media. */
  lemma DeepSeekRefusesBeforeSending(key: string, prompt: string, o: Options,
                                     send: ChatRequest -> Result<Option<DeepSeekBody>, HttpFailure>)
    ensures key == "" ==> DeepSeekCall(key, prompt, o, send) == Err("DeepSeek: Нет доступного ключа")
    ensures key != "" && HasMedia(o) ==> DeepSeekCall(key, prompt, o, send) == Err("DeepSeek: Vision не поддерживается в текущей версии")
  {
  }

  // ---------------------------------------------------------------------
  // Gemini and Gemma through the Google SDK
  // ---------------------------------------------------------------------

  datatype Part = Inline(mimeType: string) | Words(text: string)

  /** A `generateContent` request: the parts of the one user turn and the token limit. */
  datatype ContentRequest = ContentRequest(model: string, parts: seq<Part>, maxTokens: int)

  /** Gemini's parts: the attachment and an instruction to look at it, when there is one, then the prompt. */
  function GeminiParts(prompt: string, o: Options): (p: seq<Part>)
    ensures |p| == (if HasMedia(o) then 3 else 1) && p[|p| - 1] == Words(prompt)
  {
    (if HasMedia(o)
     then [Inline(o.media.value.mimeType),
           Words("Проанализируй этот файл. Опиши, что там, " + "или ответь на вопрос по нему.")]
     else [])
    + [Words(prompt)]
  }

  /** One safety rating of a candidate. */
  datatype Rating = Rating(probability: string, category: string)

  /** A grounding source: its URI (empty when missing) and its title (empty when missing). */
  datatype Web = Web(uri: string, title: string)

  /**
   * The first candidate as the code reads it: its finish reason (empty
   * when missing), its safety ratings (none when missing), the texts of
   * its content parts if it has parts (empty for a part without text) and
   * the grounding chunks if it has grounding metadata with chunks (each
   * with or without a web source).
   */
  datatype Candidate = Candidate(finishReason: string, ratings: seq<Rating>, parts: Option<seq<string>>,
                                 chunks: Option<seq<Option<Web>>>)

  /** A response: the candidates, if the field is there, and what `response.text()` returns or throws. */
  datatype GeminiResponse = GeminiResponse(candidates: Option<seq<Candidate>>, text: Result<string, string>)

  /** A rating that blocks an answer: HIGH or MEDIUM. */
  predicate IsFlagged(r: Rating)
  {
    r.probability == "HIGH" || r.probability == "MEDIUM"
  }

  /** The categories rated HIGH or MEDIUM, in order. */
  function Flagged(ratings: seq<Rating>): (r: seq<string>)
    ensures |r| <= |ratings|
    ensures forall c | c in r :: exists i | 0 <= i < |ratings| :: ratings[i].category == c && IsFlagged(ratings[i])
    ensures (exists i | 0 <= i < |ratings| :: IsFlagged(ratings[i])) ==> r != []
  {
    if ratings == [] then []
    else
      var rest := Flagged(ratings[1..]);
      assert forall c | c in rest :: exists i | 0 <= i < |ratings| :: ratings[i].category == c && IsFlagged(ratings[i]) by {
        forall c | c in rest
          ensures exists i | 0 <= i < |ratings| :: ratings[i].category == c && IsFlagged(ratings[i])
        {
          var j :| 0 <= j < |ratings[1..]| && ratings[1..][j].category == c && IsFlagged(ratings[1..][j]);
          assert ratings[j + 1] == ratings[1..][j];
        }
      }
      if IsFlagged(ratings[0]) then [ratings[0].category] + rest
      else
        assert (exists i | 0 <= i < |ratings| :: IsFlagged(ratings[i])) ==> (exists i | 0 <= i < |ratings[1..]| :: IsFlagged(ratings[1..][i])) by {
          if exists i | 0 <= i < |ratings| :: IsFlagged(ratings[i]) {
            var i :| 0 <= i < |ratings| && IsFlagged(ratings[i]);
            assert ratings[1..][i - 1] == ratings[i];
          }
        }
        rest
  }

  /** The categories that block an answer: only for a SAFETY or RECITATION finish. */
  function Blocked(first: Candidate): seq<string>
  {
    if first.finishReason == "SAFETY" || first.finishReason == "RECITATION" then Flagged(first.ratings) else []
  }

  /** The markdown link of a grounding chunk with a web URI: the title, or "Источник" without one. */
  function Links(chunks: seq<Option<Web>>): (r: seq<string>)
    ensures |r| <= |chunks|
  {
    if chunks == [] then []
    else
      var head := match chunks[0]
        case Some(web) =>
          if web.uri != "" then ["[" + (if web.title != "" then web.title else "Источник") + "](" + web.uri + ")"] else []
        case None => [];
      head + Links(chunks[1..])
  }

  /** `[...new Set(xs)]`: each value once, at the place it first appears. */
  function Dedupe(xs: seq<string>): (r: seq<string>)
    ensures |r| <= |xs|
    ensures forall x :: x in r <==> x in xs
    ensures forall i, j | 0 <= i < j < |r| :: r[i] != r[j]
    ensures xs != [] ==> r != [] && r[0] == xs[0]
  {
    if xs == [] then []
    else
      var rest := Dedupe(xs[..|xs| - 1]);
      assert forall x :: x in xs <==> x in xs[..|xs| - 1] || x == xs[|xs| - 1] by {
        assert xs == xs[..|xs| - 1] + [xs[|xs| - 1]];
      }
      if xs[|xs| - 1] in rest then rest else rest + [xs[|xs| - 1]]
  }

  /** The links shown under an answer: the first three distinct ones. */
  function Sources(chunks: seq<Option<Web>>): (r: seq<string>)
  {
    var unique := Dedupe(Links(chunks));
    if |unique| <= 3 then unique else unique[..3]
  }

  /** At most three sources are shown, no two alike, and each is a link of the chunks. */
  lemma SourcesDistinct(chunks: seq<Option<Web>>)
    ensures |Sources(chunks)| <= 3
    ensures forall i, j | 0 <= i < j < |Sources(chunks)| :: Sources(chunks)[i] != Sources(chunks)[j]
    ensures forall s | s in Sources(chunks) :: s in Links(chunks)
    ensures Links(chunks) != [] ==> Sources(chunks) != [] && Sources(chunks)[0] == Links(chunks)[0]
  {
    var unique := Dedupe(Links(chunks));
    if |unique| > 3 {
      forall s | s in unique[..3]
        ensures s in Links(chunks)
      {
        var i :| 0 <= i < 3 && unique[i] == s;
        assert s in unique;
      }
    }
  }

  /** The answer with its sources appended, when any chunk has a web URI. */
  function WithSources(text: string, chunks: seq<Option<Web>>): string
  {
    var shown := Sources(chunks);
    if shown == [] then text else text + "\n\nНашел тут: " + Join(shown, " • ")
  }

  /** The finish reason of the first candidate, or "UNKNOWN". */
  function ReasonOf(candidates: Option<seq<Candidate>>): string
  {
    if candidates.Some? && |candidates.value| > 0 && candidates.value[0].finishReason != ""
    then candidates.value[0].finishReason else "UNKNOWN"
  }

  /** The error Node.js raises on `response.candidates[0].groundingMetadata` with no candidates. */
  function NoCandidateError(): string
  {
    "Cannot read properties of undefined (reading 'groundingMetadata')"
  }

  /**
   * The text Gemini reads from a response before cleaning it: a SAFETY or
   * RECITATION finish with HIGH or MEDIUM ratings is an error naming them;
   * otherwise `response.text()`, or when that throws the joined texts of
   * the first candidate's parts, an error when blank.
   */
  function GeminiRaw(response: GeminiResponse): Result<string, string>
  {
    var candidates := response.candidates;
    var reason := ReasonOf(candidates);
    if candidates.Some? && |candidates.value| > 0 && Blocked(candidates.value[0]) != [] then
      Err("Gemini: Ответ заблокирован безопасностью (" + Join(Blocked(candidates.value[0]), ", ") + ")")
    else if response.text.Ok? then Ok(response.text.value)
    else
      var joined :=
        if candidates.Some? && |candidates.value| > 0 && candidates.value[0].parts.Some?
        then Concat(candidates.value[0].parts.value) else "";
      if IsJsBlank(joined) then Err("Gemini: Не удалось получить текст ответа. FinishReason: " + reason)
      else Ok(joined)
  }

  /**
   * The sources step: without a candidates field the text stays; with an
   * empty one, reading the first candidate's grounding metadata throws;
   * otherwise the first candidate's sources are appended when it has
   * grounding chunks.
   */
  function Attach(candidates: Option<seq<Candidate>>, text: string): (r: Result<string, string>)
  {
    if candidates.None? then Ok(text)
    else if |candidates.value| == 0 then Err(NoCandidateError())
    else if candidates.value[0].chunks.None? then Ok(text)
    else Ok(WithSources(text, candidates.value[0].chunks.value))
  }

  /** Appending the sources keeps the text in front, so a text that is not blank stays so. */
  lemma AttachKeepsText(candidates: Option<seq<Candidate>>, text: string)
    requires Attach(candidates, text).Ok?
    ensures StartsWith(Attach(candidates, text).value, text)
    ensures !IsJsBlank(text) ==> !IsJsBlank(Attach(candidates, text).value)
  {
    var r := Attach(candidates, text).value;
    if r != text {
      var tail := "\n\nНашел тут: " + Join(Sources(candidates.value[0].chunks.value), " • ");
      assert r == text + tail;
      assert r[..|text|] == text;
      if !IsJsBlank(text) {
        NotBlankAppend(text, tail);
      }
    }
  }

  /**
   * Gemini's reading of a response: the raw text, cleaned, must leave
   * something; then the sources step.
   */
  function GeminiReply(response: GeminiResponse, strip: string -> string): (r: Result<string, string>)
  {
    var raw := GeminiRaw(response);
    if raw.Err? then Err(raw.error)
    else
      var text := Unfence(strip(raw.value));
      if IsJsBlank(text) then Err("Gemini: Ответ пустой после обработки. FinishReason: " + ReasonOf(response.candidates))
      else Attach(response.candidates, text)
  }

  /** Gemini's `apiCall`: build the parts, call, read the response. */
  function GeminiCall(prompt: string, o: Options, strip: string -> string,
                      send: ContentRequest -> Result<GeminiResponse, string>): Result<string, string>
  {
    match send(ContentRequest("gemini", GeminiParts(prompt, o), TokenLimit(o, 2500)))
    case Err(e) => Err(e)
    case Ok(response) => GeminiReply(response, strip)
  }

  /** A Gemini answer is never blank: it starts with the cleaned raw text, which is not. */
  lemma GeminiAnswerNotBlank(response: GeminiResponse, strip: string -> string)
    requires GeminiReply(response, strip).Ok?
    ensures GeminiRaw(response).Ok?
    ensures StartsWith(GeminiReply(response, strip).value, Unfence(strip(GeminiRaw(response).value)))
    ensures !IsJsBlank(GeminiReply(response, strip).value)
  {
    AttachKeepsText(response.candidates, Unfence(strip(GeminiRaw(response).value)));
  }

  /** A blocked answer is refused exactly when a SAFETY or RECITATION finish carries a HIGH or MEDIUM rating. */
  lemma GeminiBlocked(response: GeminiResponse, strip: string -> string)
    requires response.candidates.Some? && |response.candidates.value| > 0
    ensures var c := response.candidates.value[0];
      (c.finishReason == "SAFETY" || c.finishReason == "RECITATION")
      && (exists i | 0 <= i < |c.ratings| :: IsFlagged(c.ratings[i]))
      ==> GeminiReply(response, strip) == Err("Gemini: Ответ заблокирован безопасностью (" + Join(Flagged(c.ratings), ", ") + ")")
  {
    var c := response.candidates.value[0];
    if (c.finishReason == "SAFETY" || c.finishReason == "RECITATION") && (exists i | 0 <= i < |c.ratings| :: IsFlagged(c.ratings[i])) {
      assert GeminiRaw(response) == Err("Gemini: Ответ заблокирован безопасностью (" + Join(Flagged(c.ratings), ", ") + ")");
    }
  }

  /** Gemma's `apiCall`: any media is refused; the text is cleaned and must not be blank; JSON is sliced. */
  function GemmaCall(prompt: string, o: Options, strip: string -> string,
                     send: ContentRequest -> Result<string, string>): Result<string, string>
  {
    if o.media.Some? then Err("Gemma: Медиа не поддерживается")
    else match send(ContentRequest("gemma-3-27b-it", [Words(prompt)], TokenLimit(o, 2000)))
      case Err(e) => Err(e)
      case Ok(raw) =>
        var text := Unfence(strip(raw));
        if IsJsBlank(text) then Err("Gemma: Ответ пустой")
        else Ok(if o.expectJson then BraceSlice(text) else text)
  }

  /** Gemma's `generateWithSystem`: the system prompt and the user prompt in one, a blank line apart. */
  function GemmaSystemPrompt(systemPrompt: string, userPrompt: string): (p: string)
    ensures StartsWith(p, systemPrompt) && EndsWith(p, userPrompt)
  {
    systemPrompt + "\n\n" + userPrompt
  }

  /** Gemma refuses media even without a MIME type, where Gemini and DeepSeek look at both. */
  lemma GemmaRefusesAnyMedia(prompt: string, o: Options, strip: string -> string,
                             send: ContentRequest -> Result<string, string>)
    requires o.media == Some(Media(""))
    ensures GemmaCall(prompt, o, strip, send) == Err("Gemma: Медиа не поддерживается")
    ensures !HasMedia(o) && |GeminiParts(prompt, o)| == 1
  {
  }

  /** A Gemma answer is the cleaned text, or its braces, and never blank without JSON slicing. */
  lemma GemmaAnswer(prompt: string, o: Options, strip: string -> string, send: ContentRequest -> Result<string, string>)
    requires GemmaCall(prompt, o, strip, send).Ok?
    ensures !o.expectJson ==> !IsJsBlank(GemmaCall(prompt, o, strip, send).value)
    ensures var raw := send(ContentRequest("gemma-3-27b-it", [Words(prompt)], TokenLimit(o, 2000))).value;
      GemmaCall(prompt, o, strip, send).value == if o.expectJson then BraceSlice(Unfence(strip(raw))) else Unfence(strip(raw))
  {
  }

  // ---------------------------------------------------------------------
  // The calls `executeWithRetry` makes, by key and attempt
  // ---------------------------------------------------------------------

  /** Groq's `generate` call with key `key` at attempt `attempt`; `net` is the SDK. */
  function GroqApi(prompt: string, o: Options, net: (ChatRequest, string, nat) -> Result<Option<string>, string>)
    : (string, nat) -> Result<string, string>
  {
    (key: string, attempt: nat) => GroqCall(prompt, o, (req: ChatRequest) => net(req, key, attempt))
  }

  /** Groq's `generateWithSystem` call. */
  function GroqSystemApi(systemPrompt: string, userPrompt: string, o: Options,
                         net: (ChatRequest, string, nat) -> Result<Option<string>, string>): (string, nat) -> Result<string, string>
  {
    (key: string, attempt: nat) => GroqSystemCall(systemPrompt, userPrompt, o, (req: ChatRequest) => net(req, key, attempt))
  }

  /** DeepSeek's `generate` call; `generateWithSystem` is this with `DeepSeekSystemOptions`. */
  function DeepSeekApi(prompt: string, o: Options, net: (ChatRequest, string, nat) -> Result<Option<DeepSeekBody>, HttpFailure>)
    : (string, nat) -> Result<string, string>
  {
    (key: string, attempt: nat) => DeepSeekCall(key, prompt, o, (req: ChatRequest) => net(req, key, attempt))
  }

  /** Gemma's `generate` call; `generateWithSystem` is this with `GemmaSystemPrompt`. */
  function GemmaApi(prompt: string, o: Options, strip: string -> string,
                    net: (ContentRequest, string, nat) -> Result<string, string>): (string, nat) -> Result<string, string>
  {
    (key: string, attempt: nat) => GemmaCall(prompt, o, strip, (req: ContentRequest) => net(req, key, attempt))
  }

  /** Gemini's call in round `round` of its `generate`. */
  function GeminiApi(prompt: string, o: Options, strip: string -> string,
                     net: (ContentRequest, nat, string, nat) -> Result<GeminiResponse, string>): (nat, string, nat) -> Result<string, string>
  {
    (round: nat, key: string, attempt: nat) => GeminiCall(prompt, o, strip, (req: ContentRequest) => net(req, round, key, attempt))
  }
}
