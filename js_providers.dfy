/**
 * The Telegram bot's AI providers (base.js, gemini.js, groq.js, deepseek.js,
 * gemma.js): a list of API keys with a rotating cursor, `executeWithRetry`
 * that calls the SDK once per attempt and moves to the next key on a quota
 * error, and each provider's shaping of requests and replies.
 *
 * Errors are JavaScript `Error`s, seen through their message, as the code
 * inspects them. An SDK or HTTP call is an oracle `net(request, round,
 * attempt)`; the regular expressions of the source are function parameters.
 */
module JsProviders {
  import opened Wrappers
  import opened Text
  import opened Gateway
  import JsReplies

  datatype Kind = Gemini | Groq | DeepSeek | Gemma

  function KindName(kind: Kind): string
  {
    match kind
    case Gemini => "Gemini"
    case Groq => "Groq"
    case DeepSeek => "DeepSeek"
    case Gemma => "Gemma"
  }

  /** `supportsVision()`: Gemini and Groq (through its vision model). */
  predicate SupportsVision(kind: Kind)
  {
    kind == Gemini || kind == Groq
  }

  /** `supportsSearch()`: only Gemini, through its Google Search tool. */
  predicate SupportsSearch(kind: Kind)
  {
    kind == Gemini
  }

  /** Providers that keep an SDK client or model built from the current key. */
  predicate HasClient(kind: Kind)
  {
    kind != DeepSeek
  }

  /** What the gateway sees of a provider of `kind` holding `keys`. */
  function Info(kind: Kind, keys: seq<string>): (p: ProviderInfo)
    ensures p.name == KindName(kind) && (p.available <==> |keys| > 0)
    ensures p.vision == SupportsVision(kind) && p.search == SupportsSearch(kind)
  {
    ProviderInfo(KindName(kind), |keys| > 0, SupportsVision(kind), SupportsSearch(kind))
  }

  /** The words whose presence makes an error a quota error. */
  const QuotaWords: set<string> := {"429", "quota", "exhausted", "limit", "rate"}

  /** `isQuotaError(error)`: the lower-cased message names a quota or a rate limit. */
  predicate IsQuotaError(message: string)
  {
    exists word | word in QuotaWords :: Contains(ToLower(message), word)
  }

  /** The quota test ignores the letter case of the message: messages equal ignoring case agree. */
  lemma QuotaIgnoresCase(message: string, other: string)
    requires EqualsIgnoreCase(message, other)
    ensures IsQuotaError(message) <==> IsQuotaError(other)
  {
    assert ToLower(message) == ToLower(other);
  }

  /** A message that holds `sub` at position `i` counts as a quota error when `sub` is a quota word. */
  lemma QuotaWordAt(message: string, sub: string, i: int)
    requires sub in QuotaWords
    requires OccursAt(ToLower(message), sub, i)
    ensures IsQuotaError(message)
  {
    ContainsWitness(ToLower(message), sub, i);
  }

  /** JavaScript `Math.ceil` on a non-negative real. */
  function Ceil(x: real): (c: int)
    ensures x <= c as real < x + 1.0
  {
    -((-x).Floor)
  }

  /**
   * The pause after a quota error, in milliseconds: one second, or the
   * server's "retry in Xs" hint rounded up when that is shorter.
   */
  function WaitMillis(hint: Option<real>): (w: int)
    ensures w <= 1000
    ensures hint.None? ==> w == 1000
    ensures hint.Some? && hint.value >= 0.0 ==> w >= 0
  {
    match hint
    case None => 1000
    case Some(seconds) =>
      var c := Ceil(seconds * 1000.0);
      if c < 1000 then c else 1000
  }

  function NoKeysMessage(name: string): string
  {
    name + ": Нет доступных ключей"
  }

  function DailyLimitMessage(name: string): string
  {
    name + ": Дневной лимит исчерпан"
  }

  function AllKeysMessage(name: string): string
  {
    name + ": Все ключи исчерпали лимит"
  }

  function UnavailableMessage(kind: Kind): string
  {
    KindName(kind) + ": Провайдер недоступен (нет ключей)"
  }

  /**
   * What `executeWithRetry` did: its outcome, the cursor it left, the key
   * indices it called with, the pauses it made and how often it rotated.
   */
  datatype Retry = Retry(outcome: Result<string, string>, cursor: nat, used: seq<nat>, waits: seq<int>, rotations: nat)

  /**
   * `executeWithRetry(apiCall)` from attempt `attempt` with the cursor at
   * `cursor`: call with the current key; a success returns; an error that is
   * not about quota is rethrown; a quota error whose "retry in" hint exceeds
   * 30 seconds ends the call; any other quota error pauses, then rotates and
   * retries while attempts remain, and otherwise reports every key exhausted.
   * `retryIn` is the hint the source extracts with a regular expression.
   */
  function RetrySpec(name: string, keys: seq<string>, cursor: nat, attempt: nat,
                     api: (string, nat) -> Result<string, string>, retryIn: string -> Option<real>): Retry
    requires cursor < |keys|
    decreases |keys| - attempt
  {
    if attempt >= |keys| then Retry(Err(AllKeysMessage(name)), cursor, [], [], 0)
    else match api(keys[cursor], attempt)
      case Ok(text) => Retry(Ok(text), cursor, [cursor], [], 0)
      case Err(message) =>
        if !IsQuotaError(message) then Retry(Err(message), cursor, [cursor], [], 0)
        else
          var hint := retryIn(message);
          if hint.Some? && hint.value > 30.0 then Retry(Err(DailyLimitMessage(name)), cursor, [cursor], [], 0)
          else if attempt < |keys| - 1 then
            var rest := RetrySpec(name, keys, Wrap(cursor + 1, |keys|), attempt + 1, api, retryIn);
            Retry(rest.outcome, rest.cursor, [cursor] + rest.used, [WaitMillis(hint)] + rest.waits, rest.rotations + 1)
          else Retry(Err(AllKeysMessage(name)), cursor, [cursor], [WaitMillis(hint)], 0)
  }

  /** The run `rest` seen after the calls `used` and pauses `waits` already made, and `turns` rotations. */
  function After(used: seq<nat>, waits: seq<int>, turns: nat, rest: Retry): Retry
  {
    Retry(rest.outcome, rest.cursor, used + rest.used, waits + rest.waits, turns + rest.rotations)
  }

  /** The key index `x` places on from index 0 of `n` keys, for `x < 2n`: the cyclic cursor without `%`. */
  function Wrap(x: nat, n: nat): nat
  {
    if x < n then x else x - n
  }

  /** `(cursor + 1) % n` for a cursor below `n`. */
  lemma NextIndex(cursor: nat, n: nat)
    requires cursor < n
    ensures (cursor + 1) % n == Wrap(cursor + 1, n)
  {
  }

  /**
   * The shape of a run from attempt `a` of `n` keys started at `cursor`: it
   * calls between one and `n - a` keys, the `j`-th of them `j` places after the
   * starting one, so none twice; it rotates once between consecutive calls
   * and never after the last, and leaves the cursor on the last key called.
   */
  ghost predicate Shaped(r: Retry, cursor: nat, n: nat, a: nat)
  {
    && a + |r.used| <= n && (a < n ==> r.used != [])
    && (forall j | 0 <= j < |r.used| :: r.used[j] == Wrap(cursor + j, n))
    && r.rotations == (if r.used == [] then 0 else |r.used| - 1)
    && r.cursor == Wrap(cursor + r.rotations, n)
  }

  /** A call with the key at `cursor`, a pause and a rotation before a shaped run keep the shape. */
  lemma ShapeStep(cursor: nat, n: nat, a: nat, wait: int, rest: Retry)
    requires cursor < n && a < n - 1
    requires Shaped(rest, Wrap(cursor + 1, n), n, a + 1)
    ensures Shaped(After([cursor], [wait], 1, rest), cursor, n, a)
  {
    var r := After([cursor], [wait], 1, rest);
    forall j | 0 <= j < |r.used|
      ensures r.used[j] == Wrap(cursor + j, n)
    {
      if j > 0 {
        assert r.used[j] == rest.used[j - 1];
      }
    }
  }

  /**
   * Each call of a run uses the key `j` places after the starting one, a run
   * calls at most `|keys| - a` keys, and it rotates fewer times than there
   * are keys.
   */
  lemma {:induction false} RetryShape(name: string, keys: seq<string>, cursor: nat, a: nat,
                                      api: (string, nat) -> Result<string, string>, retryIn: string -> Option<real>)
    requires cursor < |keys| && a <= |keys|
    ensures Shaped(RetrySpec(name, keys, cursor, a, api, retryIn), cursor, |keys|, a)
    ensures RetrySpec(name, keys, cursor, a, api, retryIn).rotations < |keys|
    decreases |keys| - a
  {
    var n := |keys|;
    if a < n && api(keys[cursor], a).Err? {
      var message := api(keys[cursor], a).error;
      var hint := retryIn(message);
      if IsQuotaError(message) && !(hint.Some? && hint.value > 30.0) && a < n - 1 {
        var rest := RetrySpec(name, keys, Wrap(cursor + 1, n), a + 1, api, retryIn);
        RetryShape(name, keys, Wrap(cursor + 1, n), a + 1, api, retryIn);
        ShapeStep(cursor, n, a, WaitMillis(hint), rest);
        RetryGoesOn(name, keys, cursor, a, api, retryIn);
      }
    }
  }

  /** Every pause of a run is at most one second. */
  lemma {:induction false} RetryPausesShort(name: string, keys: seq<string>, cursor: nat, a: nat,
                                            api: (string, nat) -> Result<string, string>, retryIn: string -> Option<real>)
    requires cursor < |keys|
    ensures var r := RetrySpec(name, keys, cursor, a, api, retryIn);
      forall j | 0 <= j < |r.waits| :: r.waits[j] <= 1000
    decreases |keys| - a
  {
    var n := |keys|;
    if a < n && api(keys[cursor], a).Err? {
      var message := api(keys[cursor], a).error;
      var hint := retryIn(message);
      if IsQuotaError(message) && !(hint.Some? && hint.value > 30.0) && a < n - 1 {
        RetryGoesOn(name, keys, cursor, a, api, retryIn);
        RetryPausesShort(name, keys, Wrap(cursor + 1, n), a + 1, api, retryIn);
        var rest := RetrySpec(name, keys, Wrap(cursor + 1, n), a + 1, api, retryIn);
        var r := After([cursor], [WaitMillis(hint)], 1, rest);
        forall j | 0 <= j < |r.waits|
          ensures r.waits[j] <= 1000
        {
          if j > 0 {
            assert r.waits[j] == rest.waits[j - 1];
          }
        }
      }
    }
  }

  /** Every message is a quota error with no long "retry in" hint. */
  ghost predicate AlwaysQuota(api: (string, nat) -> Result<string, string>, retryIn: string -> Option<real>)
  {
    forall key, k :: api(key, k).Err? && IsQuotaError(api(key, k).error)
      && !(retryIn(api(key, k).error).Some? && retryIn(api(key, k).error).value > 30.0)
  }

  /**
   * When every call fails on quota, a run from attempt `a` calls `|keys| - a`
   * keys, pauses after each, rotates between them and reports every key
   * exhausted.
   */
  lemma {:induction false} QuotaRun(name: string, keys: seq<string>, cursor: nat, a: nat,
                                    api: (string, nat) -> Result<string, string>, retryIn: string -> Option<real>)
    requires AlwaysQuota(api, retryIn)
    requires cursor < |keys| && a < |keys|
    ensures var r := RetrySpec(name, keys, cursor, a, api, retryIn);
      && r.outcome == Err(AllKeysMessage(name))
      && |r.used| == |keys| - a && |r.waits| == |keys| - a
      && r.rotations == |keys| - a - 1
    decreases |keys| - a
  {
    if a < |keys| - 1 {
      QuotaRun(name, keys, Wrap(cursor + 1, |keys|), a + 1, api, retryIn);
    }
  }

  /**
   * With `n` keys all failing on quota, `executeWithRetry` calls `n` times,
   * rotates `n - 1` times, leaves the cursor one place before where it
   * started, and reports every key exhausted.
   */
  lemma AllQuotaFailures(name: string, keys: seq<string>, cursor: nat,
                         api: (string, nat) -> Result<string, string>, retryIn: string -> Option<real>)
    requires AlwaysQuota(api, retryIn)
    requires cursor < |keys|
    ensures var r := RetrySpec(name, keys, cursor, 0, api, retryIn);
      && r.outcome == Err(AllKeysMessage(name))
      && |r.used| == |keys| && r.rotations == |keys| - 1
      && r.cursor == (if cursor == 0 then |keys| - 1 else cursor - 1)
  {
    QuotaRun(name, keys, cursor, 0, api, retryIn);
    RetryShape(name, keys, cursor, 0, api, retryIn);
  }

  /** An error that is not about quota is rethrown after one call, without a rotation. */
  lemma OtherErrorRethrown(name: string, keys: seq<string>, cursor: nat,
                           api: (string, nat) -> Result<string, string>, retryIn: string -> Option<real>)
    requires cursor < |keys|
    requires api(keys[cursor], 0).Err? && !IsQuotaError(api(keys[cursor], 0).error)
    ensures RetrySpec(name, keys, cursor, 0, api, retryIn) == Retry(api(keys[cursor], 0), cursor, [cursor], [], 0)
  {
  }

  /** A quota error asking to wait more than 30 seconds ends the run at once. */
  lemma LongWaitGivesUp(name: string, keys: seq<string>, cursor: nat,
                        api: (string, nat) -> Result<string, string>, retryIn: string -> Option<real>)
    requires cursor < |keys|
    requires api(keys[cursor], 0).Err? && IsQuotaError(api(keys[cursor], 0).error)
    requires var hint := retryIn(api(keys[cursor], 0).error); hint.Some? && hint.value > 30.0
    ensures RetrySpec(name, keys, cursor, 0, api, retryIn) == Retry(Err(DailyLimitMessage(name)), cursor, [cursor], [], 0)
  {
  }

  /** A successful run from attempt `a` returns the reply of its last call, made with the key it names. */
  ghost predicate EndsWithCall(r: Retry, keys: seq<string>, a: nat, api: (string, nat) -> Result<string, string>)
  {
    r.outcome.Ok? ==>
      r.used != [] && r.used[|r.used| - 1] < |keys| && r.outcome == api(keys[r.used[|r.used| - 1]], a + |r.used| - 1)
  }

  /** A quota failure before a run that ends with its last call still ends with that call. */
  lemma SuccessStep(keys: seq<string>, cursor: nat, a: nat, wait: int, rest: Retry,
                    api: (string, nat) -> Result<string, string>)
    requires EndsWithCall(rest, keys, a + 1, api)
    ensures EndsWithCall(After([cursor], [wait], 1, rest), keys, a, api)
  {
    var r := After([cursor], [wait], 1, rest);
    if r.outcome.Ok? {
      assert r.used[|r.used| - 1] == rest.used[|rest.used| - 1];
    }
  }

  /** A successful run returns the reply of its last call, made with the key it names. */
  lemma {:induction false} RetrySuccess(name: string, keys: seq<string>, cursor: nat, a: nat,
                                        api: (string, nat) -> Result<string, string>, retryIn: string -> Option<real>)
    requires cursor < |keys|
    ensures EndsWithCall(RetrySpec(name, keys, cursor, a, api, retryIn), keys, a, api)
    decreases |keys| - a
  {
    var n := |keys|;
    if a < n && api(keys[cursor], a).Err? {
      var message := api(keys[cursor], a).error;
      var hint := retryIn(message);
      if IsQuotaError(message) && !(hint.Some? && hint.value > 30.0) && a < n - 1 {
        var next := Wrap(cursor + 1, n);
        var rest := RetrySpec(name, keys, next, a + 1, api, retryIn);
        RetrySuccess(name, keys, next, a + 1, api, retryIn);
        SuccessStep(keys, cursor, a, WaitMillis(hint), rest, api);
        RetryGoesOn(name, keys, cursor, a, api, retryIn);
      } else if IsQuotaError(message) {
        assert RetrySpec(name, keys, cursor, a, api, retryIn).outcome.Err?;
      } else {
        RetryEnds(name, keys, cursor, a, api, retryIn);
      }
    } else if a < n {
      RetryEnds(name, keys, cursor, a, api, retryIn);
    }
  }

  /** The first call of a run, when it ends the run. */
  lemma RetryEnds(name: string, keys: seq<string>, cursor: nat, a: nat,
                  api: (string, nat) -> Result<string, string>, retryIn: string -> Option<real>)
    requires cursor < |keys| && a < |keys|
    requires var result := api(keys[cursor], a);
      result.Ok? || !IsQuotaError(result.error)
    ensures RetrySpec(name, keys, cursor, a, api, retryIn) == Retry(api(keys[cursor], a), cursor, [cursor], [], 0)
  {
  }

  /** The first call of a run, when it fails on quota and the run goes on with the next key. */
  lemma RetryGoesOn(name: string, keys: seq<string>, cursor: nat, a: nat,
                    api: (string, nat) -> Result<string, string>, retryIn: string -> Option<real>)
    requires cursor < |keys| && a < |keys| - 1
    requires var result := api(keys[cursor], a);
      result.Err? && IsQuotaError(result.error)
      && !(retryIn(result.error).Some? && retryIn(result.error).value > 30.0)
    ensures RetrySpec(name, keys, cursor, a, api, retryIn)
      == After([cursor], [WaitMillis(retryIn(api(keys[cursor], a).error))], 1,
               RetrySpec(name, keys, Wrap(cursor + 1, |keys|), a + 1, api, retryIn))
  {
  }

  /** Runs seen after two stretches of calls are seen after both at once. */
  lemma AfterAfter(u1: seq<nat>, w1: seq<int>, t1: nat, u2: seq<nat>, w2: seq<int>, t2: nat, r: Retry)
    ensures After(u1, w1, t1, After(u2, w2, t2, r)) == After(u1 + u2, w1 + w2, t1 + t2, r)
  {
    assert u1 + (u2 + r.used) == u1 + u2 + r.used;
    assert w1 + (w2 + r.waits) == w1 + w2 + r.waits;
  }

  /** The rest of a run after a call: nothing more once the call ended it with `r`, otherwise the run from the next attempt. */
  function Remaining(done: bool, r: Result<string, string>, name: string, keys: seq<string>, cursor: nat, attempt: nat,
                     api: (string, nat) -> Result<string, string>, retryIn: string -> Option<real>): Retry
    requires cursor < |keys|
  {
    if done then Retry(r, cursor, [], [], 0) else RetrySpec(name, keys, cursor, attempt, api, retryIn)
  }

  /** A run seen after calls already made, when it makes no more calls itself. */
  lemma AfterNothing(used: seq<nat>, waits: seq<int>, turns: nat, outcome: Result<string, string>, cursor: nat)
    ensures After(used, waits, turns, Retry(outcome, cursor, [], [], 0)) == Retry(outcome, cursor, used, waits, turns)
  {
    assert used + [] == used;
    assert waits + [] == waits;
  }

  /** The error the Gemini provider raises when every round came back empty. */
  function EmptyAllMessage(): string
  {
    "Gemini: Все ключи вернули " + "пустой ответ"
  }

  /** `sub` followed by more text occurring in `s` means `sub` occurs in `s`. */
  lemma ContainsPrefixOf(s: string, sub: string, more: string)
    requires Contains(s, sub + more)
    ensures Contains(s, sub)
  {
    var i :| 0 <= i <= |s| - |sub + more| && OccursAt(s, sub + more, i);
    assert s[i..i + |sub|] == (sub + more)[..|sub|];
    assert OccursAt(s, sub, i);
  }

  /** `sub` preceded by more text occurring in `s` means `sub` occurs in `s`. */
  lemma ContainsSuffixOf(s: string, more: string, sub: string)
    requires Contains(s, more + sub)
    ensures Contains(s, sub)
  {
    var i :| 0 <= i <= |s| - |more + sub| && OccursAt(s, more + sub, i);
    assert s[i + |more|..i + |more| + |sub|] == (more + sub)[|more|..];
    assert OccursAt(s, sub, i + |more|);
  }

  /** The phrases Gemini's `generate` looks for in an error about an empty answer. */
  function EmptyPhrases(): set<string>
  {
    {"пустой", "пустой ответ", EmptyAllMessage()}
  }

  /** The three phrases Gemini's `generate` checks for an empty-answer error. */
  predicate IsEmptyError(message: string)
  {
    exists phrase | phrase in EmptyPhrases() :: Contains(message, phrase)
  }

  /** The last two phrases contain the first, so the word "пустой" alone decides. */
  lemma EmptyErrorWord(message: string)
    ensures IsEmptyError(message) <==> Contains(message, "пустой")
  {
    if Contains(message, "пустой ответ") {
      assert "пустой" + " ответ" == "пустой ответ";
      ContainsPrefixOf(message, "пустой", " ответ");
    }
    if Contains(message, EmptyAllMessage()) {
      ContainsSuffixOf(message, "Gemini: Все ключи вернули ", "пустой ответ");
      assert "пустой" + " ответ" == "пустой ответ";
      ContainsPrefixOf(message, "пустой", " ответ");
    }
  }

  /** The error raised when every round was empty is itself an empty-answer error. */
  lemma EmptyAllIsEmptyError()
    ensures IsEmptyError(EmptyAllMessage())
  {
    assert OccursAt(EmptyAllMessage(), "пустой", 26);
    assert "пустой" in EmptyPhrases();
  }

  /** A round of Gemini's `generate` that asks for another key: a blank reply or an empty-answer error. */
  predicate EmptyRound(outcome: Result<string, string>)
  {
    if outcome.Ok? then IsJsBlank(outcome.value) else IsEmptyError(outcome.error)
  }

  function Min(a: int, b: int): int
  {
    if a < b then a else b
  }

  /** The API call of round `round`: each round of `generate` calls the network anew. */
  function RoundCall(api: (nat, string, nat) -> Result<string, string>, round: nat): (string, nat) -> Result<string, string>
  {
    (key: string, attempt: nat) => api(round, key, attempt)
  }

  /** The `executeWithRetry` run of round `round` started with the cursor at `start`. */
  function Round(name: string, keys: seq<string>, start: nat, round: nat,
                 api: (nat, string, nat) -> Result<string, string>, retryIn: string -> Option<real>): Retry
    requires start < |keys|
  {
    RetrySpec(name, keys, start, 0, RoundCall(api, round), retryIn)
  }

  /** Round `i` of Gemini's `generate` started at `starts[i]` and ended with `rounds[i]`. */
  ghost predicate RoundsMatch(name: string, keys: seq<string>, starts: seq<nat>, rounds: seq<Result<string, string>>,
                              api: (nat, string, nat) -> Result<string, string>, retryIn: string -> Option<real>)
  {
    && |starts| == |rounds|
    && forall i | 0 <= i < |rounds| :: starts[i] < |keys| && rounds[i] == Round(name, keys, starts[i], i, api, retryIn).outcome
  }

  /** Every round of Gemini's `generate` but the last was empty, and the next one started one key after where it ended. */
  ghost predicate RoundsLinked(name: string, keys: seq<string>, starts: seq<nat>, rounds: seq<Result<string, string>>,
                               api: (nat, string, nat) -> Result<string, string>, retryIn: string -> Option<real>)
    requires RoundsMatch(name, keys, starts, rounds, api, retryIn)
  {
    forall i | 0 <= i < |rounds| - 1 ::
      EmptyRound(rounds[i]) && starts[i + 1] == Wrap(Round(name, keys, starts[i], i, api, retryIn).cursor + 1, |keys|)
  }

  /** The rounds of Gemini's `generate` as the keys `keys` and the oracle saw them. */
  ghost predicate RoundsChain(name: string, keys: seq<string>, starts: seq<nat>, rounds: seq<Result<string, string>>,
                              api: (nat, string, nat) -> Result<string, string>, retryIn: string -> Option<real>)
  {
    RoundsMatch(name, keys, starts, rounds, api, retryIn) && RoundsLinked(name, keys, starts, rounds, api, retryIn)
  }

  /** One more round, the next in order, keeps the rounds matched. */
  lemma MatchExtend(name: string, keys: seq<string>, starts: seq<nat>, rounds: seq<Result<string, string>>,
                    start: nat, outcome: Result<string, string>,
                    api: (nat, string, nat) -> Result<string, string>, retryIn: string -> Option<real>)
    requires RoundsMatch(name, keys, starts, rounds, api, retryIn)
    requires start < |keys| && outcome == Round(name, keys, start, |rounds|, api, retryIn).outcome
    ensures RoundsMatch(name, keys, starts + [start], rounds + [outcome], api, retryIn)
  {
  }

  /** A call that never answers with a blank text makes a run that never does. */
  lemma RunNeverBlank(name: string, keys: seq<string>, cursor: nat, api: (string, nat) -> Result<string, string>,
                      retryIn: string -> Option<real>)
    requires cursor < |keys|
    requires forall key, attempt :: api(key, attempt).Ok? ==> !IsJsBlank(api(key, attempt).value)
    ensures var outcome := RetrySpec(name, keys, cursor, 0, api, retryIn).outcome;
      outcome.Ok? ==> !IsJsBlank(outcome.value)
  {
    RetrySuccess(name, keys, cursor, 0, api, retryIn);
  }

  /**
   * With Gemini's own call, a round never ends with a blank reply: an
   * answer is the reply of one call, and Gemini's reading of a reply never
   * yields a blank text. Only empty-answer errors make `generate` try
   * another key.
   */
  lemma GeminiRoundNotBlank(prompt: string, o: JsReplies.Options, strip: string -> string,
                            net: (JsReplies.ContentRequest, nat, string, nat) -> Result<JsReplies.GeminiResponse, string>,
                            keys: seq<string>, start: nat, round: nat, retryIn: string -> Option<real>)
    requires start < |keys|
    ensures var outcome := Round("Gemini", keys, start, round, JsReplies.GeminiApi(prompt, o, strip, net), retryIn).outcome;
      outcome.Ok? ==> !EmptyRound(outcome)
  {
    var call := RoundCall(JsReplies.GeminiApi(prompt, o, strip, net), round);
    forall key, attempt | call(key, attempt).Ok?
      ensures !IsJsBlank(call(key, attempt).value)
    {
      var send := (req: JsReplies.ContentRequest) => net(req, round, key, attempt);
      assert call(key, attempt) == JsReplies.GeminiCall(prompt, o, strip, send);
      var response := send(JsReplies.ContentRequest("gemini", JsReplies.GeminiParts(prompt, o), JsReplies.TokenLimit(o, 2500))).value;
      JsReplies.GeminiAnswerNotBlank(response, strip);
    }
    RunNeverBlank("Gemini", keys, start, call, retryIn);
  }

  /**
   * How Gemini's `generate` ends after the rounds `rounds`, started at
   * `starts`, with the cursor at `initial` before and at `final` after: at
   * most `min(|keys|, 3)` chained rounds; the reply of the last one unless
   * it was empty; after an empty last round every key reported empty, the
   * cursor left where that round ended when the empty rounds ran out, or
   * back at the start after more than one round otherwise.
   */
  ghost predicate GeminiOutcome(name: string, keys: seq<string>, starts: seq<nat>, rounds: seq<Result<string, string>>,
                                r: Result<string, string>, initial: nat, final: nat,
                                api: (nat, string, nat) -> Result<string, string>, retryIn: string -> Option<real>)
  {
    && 1 <= |rounds| <= Min(|keys|, 3) && RoundsChain(name, keys, starts, rounds, api, retryIn)
    && starts[0] == initial
    && var last := Round(name, keys, starts[|rounds| - 1], |rounds| - 1, api, retryIn);
    && (!EmptyRound(rounds[|rounds| - 1]) ==> r == rounds[|rounds| - 1] && final == last.cursor)
    && (EmptyRound(rounds[|rounds| - 1]) ==>
          r == Err(EmptyAllMessage())
          && (if |rounds| == Min(|keys|, 3) then final == last.cursor else |rounds| > 1 && final == initial))
  }

  /**
   * The state at the head of the loop of Gemini's `generate`: fewer rounds
   * than allowed, chained, all of them empty, and the cursor at the start or
   * one key after where the last round ended.
   */
  ghost predicate GeminiLoop(name: string, keys: seq<string>, starts: seq<nat>, rounds: seq<Result<string, string>>,
                             initial: nat, cursor: nat,
                             api: (nat, string, nat) -> Result<string, string>, retryIn: string -> Option<real>)
  {
    && |rounds| < Min(|keys|, 3) && RoundsChain(name, keys, starts, rounds, api, retryIn)
    && (|rounds| == 0 ==> cursor == initial)
    && (|rounds| > 0 ==>
          starts[0] == initial && EmptyRound(rounds[|rounds| - 1])
          && cursor == Wrap(Round(name, keys, starts[|rounds| - 1], |rounds| - 1, api, retryIn).cursor + 1, |keys|))
  }

  /** An empty round that leaves more rounds allowed keeps the loop going, one key on. */
  lemma RoundGoesOn(name: string, keys: seq<string>, starts: seq<nat>, rounds: seq<Result<string, string>>,
                    initial: nat, start: nat, outcome: Result<string, string>, final: nat,
                    api: (nat, string, nat) -> Result<string, string>, retryIn: string -> Option<real>)
    requires GeminiLoop(name, keys, starts, rounds, initial, start, api, retryIn) && start < |keys|
    requires outcome == Round(name, keys, start, |rounds|, api, retryIn).outcome
    requires EmptyRound(outcome) && |rounds| + 1 < Min(|keys|, 3)
    requires final == Wrap(Round(name, keys, start, |rounds|, api, retryIn).cursor + 1, |keys|)
    ensures GeminiLoop(name, keys, starts + [start], rounds + [outcome], initial, final, api, retryIn)
  {
    ChainExtend(name, keys, starts, rounds, start, outcome, api, retryIn);
    var s, o := starts + [start], rounds + [outcome];
    assert s[|rounds|] == start && o[|rounds|] == outcome && s[0] == initial;
  }

  /** The round that ends Gemini's `generate`, added to the chain before it, gives the outcome of the call. */
  lemma RoundEnds(name: string, keys: seq<string>, starts: seq<nat>, rounds: seq<Result<string, string>>,
                  initial: nat, start: nat, outcome: Result<string, string>, r: Result<string, string>, final: nat,
                  api: (nat, string, nat) -> Result<string, string>, retryIn: string -> Option<real>)
    requires GeminiLoop(name, keys, starts, rounds, initial, start, api, retryIn) && start < |keys|
    requires outcome == Round(name, keys, start, |rounds|, api, retryIn).outcome
    requires !EmptyRound(outcome) ==> r == outcome && final == Round(name, keys, start, |rounds|, api, retryIn).cursor
    requires EmptyRound(outcome) ==>
      r == Err(EmptyAllMessage())
      && (if |rounds| + 1 == Min(|keys|, 3) then final == Round(name, keys, start, |rounds|, api, retryIn).cursor
          else |rounds| > 0 && final == initial)
    ensures GeminiOutcome(name, keys, starts + [start], rounds + [outcome], r, initial, final, api, retryIn)
  {
    ChainExtend(name, keys, starts, rounds, start, outcome, api, retryIn);
    var s, o := starts + [start], rounds + [outcome];
    assert s[|rounds|] == start && o[|rounds|] == outcome && s[0] == initial;
  }

  /** A round that follows the empty last round of a chain, one key after where that one ended, extends the chain. */
  lemma ChainExtend(name: string, keys: seq<string>, starts: seq<nat>, rounds: seq<Result<string, string>>,
                    start: nat, outcome: Result<string, string>,
                    api: (nat, string, nat) -> Result<string, string>, retryIn: string -> Option<real>)
    requires RoundsChain(name, keys, starts, rounds, api, retryIn)
    requires start < |keys| && outcome == Round(name, keys, start, |rounds|, api, retryIn).outcome
    requires rounds != [] ==>
      EmptyRound(rounds[|rounds| - 1])
      && start == Wrap(Round(name, keys, starts[|rounds| - 1], |rounds| - 1, api, retryIn).cursor + 1, |keys|)
    ensures RoundsChain(name, keys, starts + [start], rounds + [outcome], api, retryIn)
  {
    MatchExtend(name, keys, starts, rounds, start, outcome, api, retryIn);
    var s, r := starts + [start], rounds + [outcome];
    forall i | 0 <= i < |r| - 1
      ensures EmptyRound(r[i]) && s[i + 1] == Wrap(Round(name, keys, s[i], i, api, retryIn).cursor + 1, |keys|)
    {
      assert s[i] == starts[i] && r[i] == rounds[i];
      if i < |rounds| - 1 {
        assert s[i + 1] == starts[i + 1];
      }
    }
  }

  /**
   * A provider: its kind, its fixed keys, the cursor of the key in use and,
   * for the SDK-based providers, the key its client or model was built with.
   */
  class Provider {
    const kind: Kind
    const keys: seq<string>
    var cursor: nat
    var client: Option<string>

    /**
     * The cursor is on a key; the client of an SDK-based provider was built
     * from the key under the cursor unless that key is empty, which
     * `initModel` skips.
     */
    ghost predicate Valid()
      reads this
    {
      (if |keys| == 0 then cursor == 0 else cursor < |keys|)
      && (HasClient(kind) && |keys| > 0 && keys[cursor] != "" ==> client == Some(keys[cursor]))
    }

    /** The constructor: cursor 0, and the client built from the first key when there is one. */
    constructor (kind: Kind, keys: seq<string>)
      ensures this.kind == kind && this.keys == keys && cursor == 0 && Valid()
      ensures client == (if HasClient(kind) && |keys| > 0 && keys[0] != "" then Some(keys[0]) else None)
    {
      this.kind := kind;
      this.keys := keys;
      cursor := 0;
      client := None;
      new;
      if HasClient(kind) && |keys| > 0 {
        InitClient();
      }
    }

    function Name(): string
    {
      KindName(kind)
    }

    /** `isAvailable()`: the provider has keys. */
    predicate IsAvailable()
    {
      |keys| > 0
    }

    /** `getCurrentKey()`: the key under the cursor, or null without keys. */
    function CurrentKey(): (k: Option<string>)
      reads this
      ensures k.None? <==> !IsAvailable()
      ensures k.Some? && cursor < |keys| ==> k.value == keys[cursor]
    {
      if |keys| == 0 then None else Some(keys[cursor % |keys|])
    }

    /** `initClient()` / `initModel()`: rebuild the client from the current key unless it is null or empty. */
    method InitClient()
      requires cursor < |keys|
      modifies this`client
      ensures client == if keys[cursor] == "" then old(client) else Some(keys[cursor])
    {
      var key := CurrentKey();
      if key.None? || key.value == "" {
        return;
      }
      client := key;
    }

    /**
     * `rotateKey()`: without keys, report failure and change nothing;
     * otherwise step the cursor cyclically, rebuild the client from the new
     * key and report success, even with a single key.
     */
    method RotateKey() returns (rotated: bool)
      requires Valid()
      modifies this
      ensures Valid()
      ensures rotated <==> IsAvailable()
      ensures cursor == if IsAvailable() then Wrap(old(cursor) + 1, |keys|) else old(cursor)
      ensures !rotated ==> client == old(client)
    {
      if |keys| == 0 {
        return false;
      }
      NextIndex(cursor, |keys|);
      cursor := (cursor + 1) % |keys|;
      if HasClient(kind) {
        InitClient();
      }
      return true;
    }

    /**
     * One pass of the loop of `executeWithRetry` at attempt `attempt`: call
     * with the current key; either the run ends here with `r`, or the quota
     * error paused for `wait` milliseconds and the key was rotated for the
     * next attempt.
     */
    method RetryAttempt(api: (string, nat) -> Result<string, string>, retryIn: string -> Option<real>, attempt: nat)
      returns (done: bool, r: Result<string, string>, waits: seq<int>)
      requires Valid() && IsAvailable() && attempt < |keys|
      modifies this
      ensures Valid()
      ensures done ==> cursor == old(cursor)
      ensures !done ==> attempt < |keys| - 1 && cursor == Wrap(old(cursor) + 1, |keys|)
      ensures RetrySpec(Name(), keys, old(cursor), attempt, api, retryIn)
        == After([old(cursor)], waits, if done then 0 else 1,
                 Remaining(done, r, Name(), keys, cursor, attempt + 1, api, retryIn))
    {
      var result := api(keys[cursor], attempt);
      if result.Ok? || !IsQuotaError(result.error) {
        RetryEnds(Name(), keys, cursor, attempt, api, retryIn);
        return true, result, [];
      }
      var message := result.error;
      var hint := retryIn(message);
      if hint.Some? && hint.value > 30.0 {
        return true, Err(DailyLimitMessage(Name())), [];
      }
      if attempt < |keys| - 1 {
        RetryGoesOn(Name(), keys, cursor, attempt, api, retryIn);
        var _ := RotateKey();
        return false, result, [WaitMillis(hint)];
      }
      return true, Err(AllKeysMessage(Name())), [WaitMillis(hint)];
    }

    /**
     * `executeWithRetry(apiCall)`: without keys an error before any call;
     * otherwise the run `RetrySpec` describes from the current cursor.
     * `api(key, attempt)` is the API call made with the key in use.
     */
    method ExecuteWithRetry(api: (string, nat) -> Result<string, string>, retryIn: string -> Option<real>)
      returns (r: Result<string, string>, used: seq<nat>, waits: seq<int>)
      requires Valid()
      modifies this
      ensures Valid()
      ensures !IsAvailable() ==> r == Err(NoKeysMessage(Name())) && used == [] && waits == [] && cursor == old(cursor)
      ensures IsAvailable() ==>
        var spec := RetrySpec(Name(), keys, old(cursor), 0, api, retryIn);
        r == spec.outcome && cursor == spec.cursor && used == spec.used && waits == spec.waits
    {
      if |keys| == 0 {
        return Err(NoKeysMessage(Name())), [], [];
      }
      ghost var spec := RetrySpec(Name(), keys, cursor, 0, api, retryIn);
      assert spec == After([], [], 0, spec);
      var maxAttempts := |keys|;
      used, waits := [], [];
      ghost var turns := 0;
      var attempt := 0;
      var finished := false;
      r := Err(AllKeysMessage(Name()));
      while !finished && attempt < maxAttempts
        invariant 0 <= attempt <= maxAttempts
        invariant Valid()
        invariant spec == After(used, waits, turns, Remaining(finished, r, Name(), keys, cursor, attempt, api, retryIn))
      {
        var before := cursor;
        var done, result, paused := RetryAttempt(api, retryIn, attempt);
        AfterAfter(used, waits, turns, [before], paused, if done then 0 else 1,
                   Remaining(done, result, Name(), keys, cursor, attempt + 1, api, retryIn));
        used, waits, turns := used + [before], waits + paused, turns + if done then 0 else 1;
        attempt, finished, r := attempt + 1, done, result;
      }
      if !finished {
        r := Err(AllKeysMessage(Name()));
      }
      AfterNothing(used, waits, turns, r, cursor);
    }

    /**
     * Gemini's `generate`: without keys an error; otherwise rounds of
     * `executeWithRetry`. A reply that is not blank, or an error that is not
     * about an empty answer, ends the call with it. After an empty round the
     * key is rotated and another round made, until `min(|keys|, 3)` rounds
     * were empty or the rotation brought the cursor back to where the call
     * started after more than one round; then every key is reported empty.
     * `api(round, key, attempt)` is the API call of that round.
     */
    method GenerateGemini(api: (nat, string, nat) -> Result<string, string>, retryIn: string -> Option<real>)
      returns (r: Result<string, string>, ghost starts: seq<nat>, ghost rounds: seq<Result<string, string>>)
      requires Valid() && kind == Gemini
      modifies this
      ensures Valid()
      ensures !IsAvailable() ==> r == Err(UnavailableMessage(kind)) && rounds == [] && cursor == old(cursor)
      ensures IsAvailable() ==> GeminiOutcome(Name(), keys, starts, rounds, r, old(cursor), cursor, api, retryIn)
    {
      if |keys| == 0 {
        return Err(UnavailableMessage(kind)), [], [];
      }
      var initial := cursor;
      var maxEmpty := Min(|keys|, 3);
      var count := 0;
      starts, rounds := [], [];
      // The bound of the source's `while` holds at every head: a round that reaches it ends the call.
      while true
        invariant Valid() && count < maxEmpty && |rounds| == count
        invariant GeminiLoop(Name(), keys, starts, rounds, initial, cursor, api, retryIn)
        decreases maxEmpty - count
      {
        var done, result, start, outcome := EmptyRetryRound(api, retryIn, initial, count, maxEmpty);
        if done {
          RoundEnds(Name(), keys, starts, rounds, initial, start, outcome, result, cursor, api, retryIn);
          return result, starts + [start], rounds + [outcome];
        }
        RoundGoesOn(Name(), keys, starts, rounds, initial, start, outcome, cursor, api, retryIn);
        starts, rounds := starts + [start], rounds + [outcome];
        count := count + 1;
      }
    }

    /**
     * One round of the loop of Gemini's `generate`, the `count`-th, in a call
     * that started with the cursor at `initial` and allows `maxEmpty` empty
     * rounds: run `executeWithRetry`; the call ends with a reply that is not
     * blank or an error that is not about an empty answer; otherwise the
     * round counts as empty and the call either ends, every key reported
     * empty, or goes on with the next key.
     */
    method EmptyRetryRound(api: (nat, string, nat) -> Result<string, string>, retryIn: string -> Option<real>,
                           initial: nat, count: nat, maxEmpty: nat)
      returns (done: bool, r: Result<string, string>, ghost start: nat, ghost outcome: Result<string, string>)
      requires Valid() && IsAvailable() && count < maxEmpty <= 3
      modifies this
      ensures Valid() && start == old(cursor) && start < |keys|
      ensures outcome == Round(Name(), keys, start, count, api, retryIn).outcome
      ensures !done ==>
        EmptyRound(outcome) && count + 1 < maxEmpty
        && cursor == Wrap(Round(Name(), keys, start, count, api, retryIn).cursor + 1, |keys|)
      ensures done && !EmptyRound(outcome) ==> r == outcome && cursor == Round(Name(), keys, start, count, api, retryIn).cursor
      ensures done && EmptyRound(outcome) ==>
        r == Err(EmptyAllMessage())
        && (if count + 1 == maxEmpty then cursor == Round(Name(), keys, start, count, api, retryIn).cursor
            else count > 0 && cursor == initial)
    {
      start := cursor;
      var result, _, _ := ExecuteWithRetry(RoundCall(api, count), retryIn);
      outcome := result;
      var emptyCount := count;
      var thrown: string;
      if result.Ok? {
        if !IsJsBlank(result.value) {
          return true, result, start, outcome;
        }
        emptyCount := emptyCount + 1;
        var stop := emptyCount >= maxEmpty;
        if !stop {
          var rotated := RotateKey();
          stop := rotated && cursor == initial && emptyCount > 1;
        }
        if !stop {
          return false, result, start, outcome;
        }
        EmptyAllIsEmptyError();
        thrown := EmptyAllMessage();
      } else {
        thrown := result.error;
      }
      // The `catch` of the source: an empty-answer error, including the one just thrown, moves on.
      if !IsEmptyError(thrown) {
        return true, Err(thrown), start, outcome;
      }
      emptyCount := emptyCount + 1;
      var stop := emptyCount >= maxEmpty;
      if !stop {
        var rotated := RotateKey();
        stop := rotated && cursor == initial && emptyCount > 1;
      }
      return stop, Err(EmptyAllMessage()), start, outcome;
    }

    /**
     * `generate` of Groq, DeepSeek and Gemma, and their `generateWithSystem`:
     * without keys an error before any call; otherwise `executeWithRetry` of
     * the provider's call (`JsReplies.GroqApi`, `JsReplies.DeepSeekApi`,
     * `JsReplies.GemmaApi` and their system-prompt forms).
     */
    method Generate(api: (string, nat) -> Result<string, string>, retryIn: string -> Option<real>)
      returns (r: Result<string, string>)
      requires Valid() && kind != Gemini
      modifies this
      ensures Valid()
      ensures !IsAvailable() ==> r == Err(UnavailableMessage(kind)) && cursor == old(cursor)
      ensures IsAvailable() ==>
        r == RetrySpec(Name(), keys, old(cursor), 0, api, retryIn).outcome
        && cursor == RetrySpec(Name(), keys, old(cursor), 0, api, retryIn).cursor
    {
      if !IsAvailable() {
        return Err(UnavailableMessage(kind));
      }
      var used, waits;
      r, used, waits := ExecuteWithRetry(api, retryIn);
    }
  }
}
