/**
 * The Discord webhook sender: validates its inputs, builds the JSON payload
 * and posts it up to three times, waiting between attempts when Discord
 * answers 429 Too Many Requests (section 4 of RFC 6585). The HTTP exchange is
 * the oracle `post`; the waits are recorded instead of slept.
 */
module DiscordWebhook {
  import opened Wrappers
  import opened Text

  const MaxAttempts: nat := 3

  /** The JSON payload: `content`, and `username` / `avatar_url` when given. */
  datatype Payload = Payload(content: string, username: Option<string>, avatarUrl: Option<string>)

  /**
   * What the 429 body says about waiting: not JSON, no `retry_after`, or
   * `retry_after` in seconds scaled to whole milliseconds and cast to `long`.
   */
  datatype RetryAfter = Unparsable | Missing | Millis(ms: int)

  /** One HTTP exchange: 2xx, 429, any other status, or a transport failure. */
  datatype Reply = Delivered | Throttled(retry: RetryAfter) | Failed(code: int) | Unreachable

  /** The outcome of a send: the result, how many requests were made, the waits between them. */
  datatype Delivery = Delivery(ok: bool, calls: nat, waits: seq<int>)

  /** An optional field is kept only when it is present and not blank. */
  function OptionalField(value: Option<string>): (r: Option<string>)
    ensures r.Some? <==> value.Some? && !IsBlank(value.value)
    ensures r.Some? ==> r == value
  {
    if value.Some? && !IsBlank(value.value) then value else None
  }

  function PayloadFor(message: string, username: Option<string>, avatarUrl: Option<string>): Payload
  {
    Payload(message, OptionalField(username), OptionalField(avatarUrl))
  }

  /** Java's `Long.MAX_VALUE`: `(long) (retryAfter * 1000)` saturates here. */
  const LongMax: int := 0x7FFF_FFFF_FFFF_FFFF

  /**
   * The pause before the next attempt: `retry_after`·1000 + 100 ms, one
   * second plus 100 ms by default, one second when the body is unreadable.
   * A sum that is negative, or that wraps past `Long.MAX_VALUE` into the
   * negatives, makes `Thread.sleep` throw; the same handler then waits one
   * second, so the pause is never negative.
   */
  function WaitFor(retry: RetryAfter): (ms: int)
    ensures ms >= 0
    ensures retry == Missing ==> ms == 1100
    ensures retry == Unparsable ==> ms == 1000
    ensures retry.Millis? && 0 <= retry.ms + 100 <= LongMax ==> ms == retry.ms + 100
    ensures retry.Millis? && !(0 <= retry.ms + 100 <= LongMax) ==> ms == 1000
  {
    match retry
    case Unparsable => 1000
    case Missing => 1000 + 100
    case Millis(ms) => if 0 <= ms + 100 <= LongMax then ms + 100 else 1000
  }

  /**
   * The attempts from `attempt` on: success ends them, a 429 before the
   * last attempt waits and tries again, anything else gives up.
   */
  function Attempts(payload: Payload, post: (Payload, nat) -> Reply, attempt: nat): (d: Delivery)
    requires attempt <= MaxAttempts
    ensures attempt <= d.calls <= MaxAttempts
    decreases MaxAttempts - attempt
  {
    if attempt >= MaxAttempts then Delivery(false, attempt, [])
    else
      match post(payload, attempt)
      case Delivered => Delivery(true, attempt + 1, [])
      case Throttled(retry) =>
        if attempt < MaxAttempts - 1 then
          var rest := Attempts(payload, post, attempt + 1);
          Delivery(rest.ok, rest.calls, [WaitFor(retry)] + rest.waits)
        else Delivery(false, attempt + 1, [])
      case Failed(_) => Delivery(false, attempt + 1, [])
      case Unreachable => Delivery(false, attempt + 1, [])
  }

  /** Every attempt but the last one made was a 429, and the number of waits is the number of retries. */
  lemma {:induction false} AttemptsShape(payload: Payload, post: (Payload, nat) -> Reply, attempt: nat)
    requires attempt < MaxAttempts
    ensures var d := Attempts(payload, post, attempt);
      attempt < d.calls && |d.waits| == d.calls - 1 - attempt
      && (forall a | attempt <= a < d.calls - 1 :: post(payload, a).Throttled?)
      && (d.ok <==> post(payload, d.calls - 1) == Delivered)
    decreases MaxAttempts - attempt
  {
    if post(payload, attempt).Throttled? && attempt < MaxAttempts - 1 {
      AttemptsShape(payload, post, attempt + 1);
    }
  }

  /** A status other than 2xx and 429 on the first attempt ends the send after one request. */
  lemma FailureNotRetried(payload: Payload, post: (Payload, nat) -> Reply)
    requires post(payload, 0).Failed? || post(payload, 0).Unreachable?
    ensures Attempts(payload, post, 0) == Delivery(false, 1, [])
  {
  }

  /** Three 429s in a row: two waits, three requests, and failure. */
  lemma ThrottledThrice(payload: Payload, post: (Payload, nat) -> Reply)
    requires forall a | 0 <= a < MaxAttempts :: post(payload, a).Throttled?
    ensures Attempts(payload, post, 0)
         == Delivery(false, 3, [WaitFor(post(payload, 0).retry), WaitFor(post(payload, 1).retry)])
  {
    assert post(payload, 0).Throttled? && post(payload, 1).Throttled? && post(payload, 2).Throttled?;
  }

  /** One attempt of the loop: what the rest of the attempts come to after it. */
  lemma AttemptStep(payload: Payload, post: (Payload, nat) -> Reply, attempt: nat)
    requires attempt < MaxAttempts
    ensures var d := Attempts(payload, post, attempt);
      var reply := post(payload, attempt);
      var rest := Attempts(payload, post, attempt + 1);
      if reply == Delivered then d == Delivery(true, attempt + 1, [])
      else if reply.Throttled? && attempt < MaxAttempts - 1 then d == Delivery(rest.ok, rest.calls, [WaitFor(reply.retry)] + rest.waits)
      else d == Delivery(false, attempt + 1, [])
  {
  }

  /** Whether a send gets as far as the network: a client, a URL and a message that are not blank. */
  predicate Sendable(initialized: bool, webhookUrl: Option<string>, message: Option<string>)
  {
    initialized && webhookUrl.Some? && !IsBlank(webhookUrl.value) && message.Some? && !IsBlank(message.value)
  }

  /**
   * `sendMessage`: refuse without a request when not initialised or when the
   * URL or message is missing or blank; otherwise post the payload in the
   * attempt loop.
   */
  method SendMessage(initialized: bool, webhookUrl: Option<string>, message: Option<string>,
                     username: Option<string>, avatarUrl: Option<string>, post: (Payload, nat) -> Reply)
    returns (d: Delivery)
    ensures !Sendable(initialized, webhookUrl, message) ==> d == Delivery(false, 0, [])
    ensures Sendable(initialized, webhookUrl, message) ==>
      d == Attempts(PayloadFor(message.value, username, avatarUrl), post, 0)
  {
    if !initialized {
      return Delivery(false, 0, []);
    }
    if webhookUrl.None? || IsBlank(webhookUrl.value) {
      return Delivery(false, 0, []);
    }
    if message.None? || IsBlank(message.value) {
      return Delivery(false, 0, []);
    }
    var payload := PayloadFor(message.value, username, avatarUrl);
    var waits: seq<int> := [];
    var attempt: nat := 0;
    while attempt < MaxAttempts
      invariant attempt <= MaxAttempts
      invariant var rest := Attempts(payload, post, attempt);
        Attempts(payload, post, 0) == Delivery(rest.ok, rest.calls, waits + rest.waits)
      decreases MaxAttempts - attempt
    {
      var reply := post(payload, attempt);
      AttemptStep(payload, post, attempt);
      if reply == Delivered {
        return Delivery(true, attempt + 1, waits);
      } else if reply.Throttled? {
        if attempt < MaxAttempts - 1 {
          ghost var rest := Attempts(payload, post, attempt + 1);
          assert waits + ([WaitFor(reply.retry)] + rest.waits) == (waits + [WaitFor(reply.retry)]) + rest.waits;
          waits := waits + [WaitFor(reply.retry)];
          attempt := attempt + 1;
          continue;
        }
        return Delivery(false, attempt + 1, waits);
      } else {
        return Delivery(false, attempt + 1, waits);
      }
    }
    assert waits + [] == waits;
    return Delivery(false, attempt, waits);
  }
}
