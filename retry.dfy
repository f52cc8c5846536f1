/** `makeOpenAIRequest`, the retry helper that both edge functions define
    (identically) around their calls to the embedding provider. The provider
    is a parameter: `provider(a)` is what the fetch of attempt `a` yields.
    Waiting is not performed; each wait is recorded, in milliseconds, in the
    order the helper would sleep. */
module OpenAIRetry {
  import opened JsText

  /** An embedding vector, as carried in the body of an ok response. */
  type Embedding = seq<real>

  /** What one attempt yields: an HTTP response (for an ok status, with its
      parsed body), a rejection of the fetch itself (network failure), or an
      ok response whose `response.json()` throws with `message`. */
  datatype Outcome =
    | Response(status: nat, statusText: string, body: Embedding)
    | Thrown(message: string)
    | Unreadable(message: string)

  /** The error the helper finally rethrows. */
  datatype Failure =
    | ApiError(status: nat, statusText: string)
    | NetworkError(message: string)
    | BodyError(message: string)

  /** How a call of the helper ends: the body of an ok response, a rethrown
      error, or, when the loop never runs (maxRetries = 0), `undefined`. */
  datatype Reply = Returned(body: Embedding) | Rethrown(failure: Failure) | Undefined

  /** The observable run of one call: how it ends, how many fetches it made,
      and the waits between them. */
  datatype Trace = Trace(reply: Reply, fetches: nat, waits: seq<nat>)

  const DefaultMaxRetries: nat := 3

  /** What both edge functions throw when `OPENAI_API_KEY` is not set. */
  const MissingKeyMessage: string := "OpenAI API key not found"

  /** `response.ok`. */
  predicate IsOk(status: nat) {
    200 <= status <= 299
  }

  predicate Succeeds(o: Outcome) {
    o.Response? && IsOk(o.status)
  }

  function Pow2(n: nat): (r: nat)
    ensures r >= 1
  {
    if n == 0 then 1 else 2 * Pow2(n - 1)
  }

  /** The message of the thrown error, as the caller's `error.message`. */
  function Message(f: Failure): string {
    match f
    case ApiError(status, text) => "OpenAI API error: " + NatToString(status) + " " + text
    case NetworkError(m) => m
    case BodyError(m) => m
  }

  /** The wait before the next attempt after attempt `a` failed with `o`
      (2^a seconds for a rate limit, 2^a half-seconds otherwise). */
  function Backoff(o: Outcome, a: nat): nat {
    if o.Response? && o.status == 429 then Pow2(a) * 1000 else Pow2(a) * 500
  }

  /** The error attempt `a` leaves in the `catch` clause. */
  function FailureOf(o: Outcome): Failure {
    match o
    case Response(status, text, _) => ApiError(status, text)
    case Thrown(m) => NetworkError(m)
    case Unreadable(m) => BodyError(m)
  }

  /** The reference behaviour: attempts `a..maxRetries`, one fetch each. */
  function Run(provider: nat -> Outcome, a: nat, maxRetries: nat): Trace
    decreases maxRetries + 1 - a
  {
    if a > maxRetries then Trace(Undefined, 0, [])
    else
      var o := provider(a);
      if Succeeds(o) then Trace(Returned(o.body), 1, [])
      else if a == maxRetries then Trace(Rethrown(FailureOf(o)), 1, [])
      else
        var t := Run(provider, a + 1, maxRetries);
        Trace(t.reply, t.fetches + 1, [Backoff(o, a)] + t.waits)
  }

  function Request(provider: nat -> Outcome, maxRetries: nat): Trace {
    Run(provider, 1, maxRetries)
  }

  /** The waits caused by failed attempts `lo..hi-1`. */
  function Waits(provider: nat -> Outcome, lo: nat, hi: nat): (r: seq<nat>)
    ensures |r| == (if hi > lo then hi - lo else 0)
    decreases if hi > lo then hi - lo else 0
  {
    if lo >= hi then [] else [Backoff(provider(lo), lo)] + Waits(provider, lo + 1, hi)
  }

  /** A trace `t` of the remaining attempts, after `fetches` fetches and
      the waits `waits` already made. */
  function After(waits: seq<nat>, fetches: nat, t: Trace): Trace {
    Trace(t.reply, t.fetches + fetches, waits + t.waits)
  }

  /** A failed attempt before the last one is one fetch and one wait, then
      the remaining attempts. */
  lemma RetryStep(provider: nat -> Outcome, a: nat, maxRetries: nat, waits: seq<nat>, fetches: nat)
    requires a < maxRetries && !Succeeds(provider(a))
    ensures After(waits, fetches, Run(provider, a, maxRetries))
         == After(waits + [Backoff(provider(a), a)], fetches + 1, Run(provider, a + 1, maxRetries))
  {
    assert waits + ([Backoff(provider(a), a)] + Run(provider, a + 1, maxRetries).waits)
        == waits + [Backoff(provider(a), a)] + Run(provider, a + 1, maxRetries).waits;
  }

  /** The helper as written: a `for` loop over `attempt` whose body returns
      the parsed body of an ok response, `continue`s after the rate-limit
      wait, and otherwise throws into its own `catch`, which rethrows on the
      last attempt and waits otherwise. A body that does not parse throws
      inside the same `try`, so it is caught and retried like any other
      failure. */
  method MakeRequest(provider: nat -> Outcome, maxRetries: nat) returns (reply: Reply, fetches: nat, waits: seq<nat>)
    ensures Trace(reply, fetches, waits) == Request(provider, maxRetries)
  {
    fetches, waits := 0, [];
    var attempt := 1;
    while attempt <= maxRetries
      invariant 1 <= attempt <= maxRetries + 1 || (maxRetries == 0 && attempt == 1)
      invariant fetches == attempt - 1
      invariant Request(provider, maxRetries) == After(waits, fetches, Run(provider, attempt, maxRetries))
      decreases maxRetries + 1 - attempt
    {
      var response := provider(attempt);
      var caught: Failure;
      if response.Response? {
        if IsOk(response.status) {
          reply := Returned(response.body);
          fetches := fetches + 1;
          return;
        }
        if response.status == 429 {
          var waitTime := Pow2(attempt) * 1000;
          if attempt < maxRetries {
            RetryStep(provider, attempt, maxRetries, waits, fetches);
            waits := waits + [waitTime];
            fetches := fetches + 1;
            attempt := attempt + 1;
            continue;
          }
        }
        caught := ApiError(response.status, response.statusText);
      } else if response.Thrown? {
        caught := NetworkError(response.message);
      } else {
        caught := BodyError(response.message);
      }
      if attempt == maxRetries {
        reply := Rethrown(caught);
        fetches := fetches + 1;
        return;
      }
      var waitTime := Pow2(attempt) * 500;
      RetryStep(provider, attempt, maxRetries, waits, fetches);
      waits := waits + [waitTime];
      fetches := fetches + 1;
      attempt := attempt + 1;
    }
    reply := Undefined;
  }

  /** The helper fetches at most `maxRetries` times, at least once when
      `maxRetries >= 1`, and returns `undefined` only when it makes no
      attempt at all. */
  lemma {:induction false} RunBounds(provider: nat -> Outcome, a: nat, maxRetries: nat)
    requires 1 <= a
    ensures var t := Run(provider, a, maxRetries);
      && t.fetches <= (if maxRetries + 1 >= a then maxRetries + 1 - a else 0)
      && (t.reply.Undefined? <==> a > maxRetries)
      && (a <= maxRetries ==> t.fetches >= 1 && |t.waits| == t.fetches - 1)
    decreases maxRetries + 1 - a
  {
    if a <= maxRetries && !Succeeds(provider(a)) && a != maxRetries {
      RunBounds(provider, a + 1, maxRetries);
    }
  }

  lemma RequestBounds(provider: nat -> Outcome, maxRetries: nat)
    ensures var t := Request(provider, maxRetries);
      && t.fetches <= maxRetries
      && (t.reply.Undefined? <==> maxRetries == 0)
      && (maxRetries >= 1 ==> t.fetches >= 1 && |t.waits| == t.fetches - 1)
  {
    RunBounds(provider, 1, maxRetries);
  }

  /** If attempt `k` is the first that succeeds, the helper returns its body
      after exactly `k` fetches, having waited the backoff of each earlier
      failure. */
  lemma {:induction false} RunReturnsFirstOk(provider: nat -> Outcome, a: nat, k: nat, maxRetries: nat)
    requires 1 <= a <= k <= maxRetries
    requires Succeeds(provider(k))
    requires forall j :: a <= j < k ==> !Succeeds(provider(j))
    ensures Run(provider, a, maxRetries) == Trace(Returned(provider(k).body), k - a + 1, Waits(provider, a, k))
    decreases k - a
  {
    if a < k {
      RunReturnsFirstOk(provider, a + 1, k, maxRetries);
    }
  }

  lemma ReturnsFirstOk(provider: nat -> Outcome, k: nat, maxRetries: nat)
    requires 1 <= k <= maxRetries
    requires Succeeds(provider(k))
    requires forall j :: 1 <= j < k ==> !Succeeds(provider(j))
    ensures Request(provider, maxRetries) == Trace(Returned(provider(k).body), k, Waits(provider, 1, k))
  {
    RunReturnsFirstOk(provider, 1, k, maxRetries);
  }

  /** If every attempt fails, the helper makes all `maxRetries` fetches,
      waits after every attempt but the last, and rethrows the last error. */
  lemma {:induction false} RunAllFail(provider: nat -> Outcome, a: nat, maxRetries: nat)
    requires 1 <= a <= maxRetries
    requires forall j :: a <= j <= maxRetries ==> !Succeeds(provider(j))
    ensures Run(provider, a, maxRetries)
         == Trace(Rethrown(FailureOf(provider(maxRetries))), maxRetries - a + 1, Waits(provider, a, maxRetries))
    decreases maxRetries - a
  {
    if a < maxRetries {
      RunAllFail(provider, a + 1, maxRetries);
    }
  }

  lemma AllFailRethrows(provider: nat -> Outcome, maxRetries: nat)
    requires 1 <= maxRetries
    requires forall j :: 1 <= j <= maxRetries ==> !Succeeds(provider(j))
    ensures Request(provider, maxRetries)
         == Trace(Rethrown(FailureOf(provider(maxRetries))), maxRetries, Waits(provider, 1, maxRetries))
  {
    RunAllFail(provider, 1, maxRetries);
  }

  /** A returned body is always that of an ok response among the first
      `maxRetries` attempts; a rethrow happens only when all of them failed. */
  lemma {:induction false} RunReplySound(provider: nat -> Outcome, a: nat, maxRetries: nat)
    requires 1 <= a
    ensures var t := Run(provider, a, maxRetries);
      && (t.reply.Returned? ==> exists k :: a <= k <= maxRetries && Succeeds(provider(k)) && t.reply.body == provider(k).body)
      && (t.reply.Rethrown? ==> forall j :: a <= j <= maxRetries ==> !Succeeds(provider(j)))
    decreases maxRetries + 1 - a
  {
    if a <= maxRetries && !Succeeds(provider(a)) && a != maxRetries {
      RunReplySound(provider, a + 1, maxRetries);
    }
  }

  lemma ReplySound(provider: nat -> Outcome, maxRetries: nat)
    ensures var t := Request(provider, maxRetries);
      && (t.reply.Returned? ==> exists k :: 1 <= k <= maxRetries && Succeeds(provider(k)) && t.reply.body == provider(k).body)
      && (t.reply.Rethrown? ==> forall j :: 1 <= j <= maxRetries ==> !Succeeds(provider(j)))
  {
    RunReplySound(provider, 1, maxRetries);
  }

  /** Three rate limits in a row: waits of 2000 and 4000 ms, then the 429
      error is rethrown without a third wait. */
  lemma ThreeRateLimits(provider: nat -> Outcome)
    requires forall a :: provider(a) == Response(429, "Too Many Requests", [])
    ensures Request(provider, DefaultMaxRetries)
         == Trace(Rethrown(ApiError(429, "Too Many Requests")), 3, [2000, 4000])
  {
    AllFailRethrows(provider, 3);
    assert Waits(provider, 3, 3) == [];
    assert Pow2(1) == 2 && Pow2(2) == 4;
  }

  /** An ok response whose body does not parse is caught like any other
      failure: after a 1000 ms wait the second attempt is made, and its
      body is returned when it reads. */
  lemma UnreadableRetried(provider: nat -> Outcome, maxRetries: nat)
    requires 2 <= maxRetries
    requires provider(1).Unreadable? && Succeeds(provider(2))
    ensures Request(provider, maxRetries) == Trace(Returned(provider(2).body), 2, [1000])
  {
    assert Backoff(provider(1), 1) == 1000 by {
      assert Pow2(1) == 2;
    }
    assert Run(provider, 2, maxRetries) == Trace(Returned(provider(2).body), 1, []);
  }

  /** The message a rethrown rate limit carries. */
  lemma RateLimitMessage()
    ensures Message(ApiError(429, "Too Many Requests")) == "OpenAI API error: " + "429 Too Many Requests"
  {
    assert NatToString(4) == "4";
    assert NatToString(42) == "42";
    assert NatToString(429) == "429";
    assert "429" + " " + "Too Many Requests" == "429 Too Many Requests";
  }
}
