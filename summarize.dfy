/**
 * The summarisation pipeline: rate check, cache key, cache lookup, then (on a
 * miss) one provider call whose stripped answer is cached. The module-level
 * dictionaries `rate_limits` and `summary_cache` are the fields of a
 * `SummarizeService`; the provider is a `Provider` object that logs its calls.
 */
module Summarize {
  import opened Wrappers
  import opened Time
  import opened Text
  import opened CacheKey
  import opened RateLimiter
  import opened SummaryCache

  /** `RateLimitExceeded`, and the `Exception("Failed to generate summary: ...")` wrapping every other failure. */
  datatype SummarizeError = RateLimitExceeded(message: string) | SummarizationFailed(message: string)

  /** The arguments of `Generation.call` that the model keeps (the float sampling settings are left out). */
  datatype ProviderRequest = ProviderRequest(model: string, prompt: string, maxTokens: int)

  /**
   * What the provider call produced: a response with a status code, its output
   * text and its optional `message`, or an exception with its `str(e)`.
   */
  datatype ProviderReply =
    | Response(statusCode: int, outputText: string, message: Option<string>)
    | Raised(detail: string)

  /** The three `datetime.now()` readings a call takes: in the rate check, the lookup and the store. */
  datatype Readings = Readings(rateCheck: Instant, cacheLookup: Instant, cacheStore: Instant)

  const FailurePrefix: string := "Failed to generate summary: "

  /** The message of `RateLimitExceeded`, with the window rendered in seconds. */
  function RateLimitMessage(): (r: string)
    ensures r == "Rate limit exceeded. Please try again in 60 seconds."
  {
    "Rate limit exceeded. Please try again in " + IntToDecimal(RateLimitWindowSeconds) + " seconds."
  }

  /** The prompt sent to the provider: the whole text, verbatim, after the instruction. */
  function Prompt(text: string, maxLength: int): (r: string)
    ensures |r| > |text| && r[|r| - |text|..] == text
  {
    "Please summarize the following text in about " + IntToDecimal(maxLength) + " characters:\n\n" + text
  }

  function Request(model: string, text: string, maxLength: int): ProviderRequest {
    ProviderRequest(model, Prompt(text, maxLength), maxLength)
  }

  /** The status the provider reports on success. */
  const StatusOk: int := 200

  predicate Succeeded(reply: ProviderReply) {
    reply.Response? && reply.statusCode == StatusOk
  }

  /** The text of the exception the failed call raises inside the `try`. */
  function ProviderError(reply: ProviderReply): string
    requires !Succeeded(reply)
  {
    match reply
    case Response(_, _, message) => "Qwen API error: " + message.GetOr("Unknown error")
    case Raised(detail) => detail
  }

  /** The result of one call and the state after it. */
  datatype Outcome = Outcome(
    result: Result<string, SummarizeError>,
    rateLimits: map<string, seq<Instant>>,
    cache: map<string, CacheEntry>,
    providerCalled: bool)

  /** A cached value is used only when it is truthy, i.e. a non-empty string. */
  predicate Truthy(summary: Option<string>) {
    summary.Some? && summary.value != ""
  }

  /**
   * `summarize_with_qwen` on explicit state; `reply` is what the provider
   * would answer if it were called.
   */
  function Summarize(
    rateLimits: map<string, seq<Instant>>, cache: map<string, CacheEntry>,
    md5: string -> string,
    text: string, maxLength: int, clientIp: string, clock: Readings, reply: ProviderReply): Outcome
  {
    var (allowed, limits) := Check(rateLimits, clientIp, clock.rateCheck);
    if !allowed then
      Outcome(Failure(RateLimitExceeded(RateLimitMessage())), limits, cache, false)
    else
      var key := GenerateCacheKey(md5, text, maxLength);
      var lookup := Get(cache, key, clock.cacheLookup);
      if Truthy(lookup.summary) then
        Outcome(Success(lookup.summary.value), limits, lookup.cache, false)
      else if Succeeded(reply) then
        var summary := Strip(reply.outputText);
        Outcome(Success(summary), limits, Put(lookup.cache, key, summary, clock.cacheStore), true)
      else
        Outcome(Failure(SummarizationFailed(FailurePrefix + ProviderError(reply))), limits, lookup.cache, true)
  }

  // ---------------------------------------------------------------------------
  // Properties of one call
  // ---------------------------------------------------------------------------

  /**
   * The rate check comes first: a refused call raises `RateLimitExceeded`,
   * neither reads nor changes the cache, and does not call the provider.
   */
  lemma RefusedCallTouchesNothingElse(
    rateLimits: map<string, seq<Instant>>, cache: map<string, CacheEntry>,
    md5: string -> string,
    text: string, maxLength: int, clientIp: string, clock: Readings, reply: ProviderReply)
    requires |Prune(History(rateLimits, clientIp), clock.rateCheck)| >= RateLimitMaxRequests
    ensures var o := Summarize(rateLimits, cache, md5, text, maxLength, clientIp, clock, reply);
      && o.result == Failure(RateLimitExceeded(RateLimitMessage()))
      && o.cache == cache
      && !o.providerCalled
      && o.rateLimits == rateLimits[clientIp := Prune(History(rateLimits, clientIp), clock.rateCheck)]
  {
  }

  /** Every admitted call, a cache hit included, takes one slot of the client's window. */
  lemma AdmittedCallTakesASlot(
    rateLimits: map<string, seq<Instant>>, cache: map<string, CacheEntry>,
    md5: string -> string,
    text: string, maxLength: int, clientIp: string, clock: Readings, reply: ProviderReply)
    requires |Prune(History(rateLimits, clientIp), clock.rateCheck)| < RateLimitMaxRequests
    ensures var o := Summarize(rateLimits, cache, md5, text, maxLength, clientIp, clock, reply);
      && !(o.result.Failure? && o.result.error.RateLimitExceeded?)
      && o.rateLimits == rateLimits[clientIp := Prune(History(rateLimits, clientIp), clock.rateCheck) + [clock.rateCheck]]
  {
  }

  /**
   * An admitted call reaches the provider exactly when the lookup found no
   * fresh, non-empty summary; an empty cached summary counts as a miss.
   */
  lemma ProviderCalledIffMiss(
    rateLimits: map<string, seq<Instant>>, cache: map<string, CacheEntry>,
    md5: string -> string,
    text: string, maxLength: int, clientIp: string, clock: Readings, reply: ProviderReply)
    requires Check(rateLimits, clientIp, clock.rateCheck).0
    ensures var key := GenerateCacheKey(md5, text, maxLength);
      var o := Summarize(rateLimits, cache, md5, text, maxLength, clientIp, clock, reply);
      && (o.providerCalled <==>
           !(key in cache && Fresh(cache[key], clock.cacheLookup) && cache[key].summary != ""))
      && (!o.providerCalled ==> o.result == Success(cache[key].summary) && o.cache == cache)
  {
  }

  /**
   * Where a successful answer comes from: a fresh non-empty cached summary, or
   * the stripped text of a status-200 response, which is then cached under the
   * key while every other key keeps its entry.
   */
  lemma SuccessComesFromCacheOrProvider(
    rateLimits: map<string, seq<Instant>>, cache: map<string, CacheEntry>,
    md5: string -> string,
    text: string, maxLength: int, clientIp: string, clock: Readings, reply: ProviderReply)
    ensures var key := GenerateCacheKey(md5, text, maxLength);
      var o := Summarize(rateLimits, cache, md5, text, maxLength, clientIp, clock, reply);
      o.result.Success? ==>
        || (!o.providerCalled && key in cache && o.result.value == cache[key].summary != "")
        || (o.providerCalled && Succeeded(reply) && o.result.value == Strip(reply.outputText)
            && o.cache == cache[key := CacheEntry(Strip(reply.outputText), clock.cacheStore)])
  {
    var key := GenerateCacheKey(md5, text, maxLength);
    if Check(rateLimits, clientIp, clock.rateCheck).0 && !Truthy(Get(cache, key, clock.cacheLookup).summary)
       && Succeeded(reply) {
      MissWithStatusOkIsStored(rateLimits, cache, md5, text, maxLength, clientIp, clock, reply);
    }
  }

  /**
   * An admitted miss answered with status 200 returns the stripped text and
   * caches it under the key, every other key keeping its entry; an empty
   * stripped text is returned and cached like any other.
   */
  lemma MissWithStatusOkIsStored(
    rateLimits: map<string, seq<Instant>>, cache: map<string, CacheEntry>,
    md5: string -> string,
    text: string, maxLength: int, clientIp: string, clock: Readings, reply: ProviderReply)
    requires Check(rateLimits, clientIp, clock.rateCheck).0
    requires !Truthy(Get(cache, GenerateCacheKey(md5, text, maxLength), clock.cacheLookup).summary)
    requires Succeeded(reply)
    ensures var key := GenerateCacheKey(md5, text, maxLength);
      var o := Summarize(rateLimits, cache, md5, text, maxLength, clientIp, clock, reply);
      && o.providerCalled
      && o.result == Success(Strip(reply.outputText))
      && o.cache == cache[key := CacheEntry(Strip(reply.outputText), clock.cacheStore)]
  {
  }

  /**
   * A failed provider call raises a message starting with
   * "Failed to generate summary: " and stores nothing: the cache is as before,
   * except that an expired entry under the key was evicted by the lookup.
   */
  lemma FailureLeavesCacheAlone(
    rateLimits: map<string, seq<Instant>>, cache: map<string, CacheEntry>,
    md5: string -> string,
    text: string, maxLength: int, clientIp: string, clock: Readings, reply: ProviderReply)
    requires !Succeeded(reply)
    ensures var key := GenerateCacheKey(md5, text, maxLength);
      var o := Summarize(rateLimits, cache, md5, text, maxLength, clientIp, clock, reply);
      && (o.result.Success? ==> !o.providerCalled)
      && (o.providerCalled ==>
           && o.result == Failure(SummarizationFailed(FailurePrefix + ProviderError(reply)))
           && o.result.error.message[..|FailurePrefix|] == FailurePrefix)
      && (o.cache == cache || (key in cache && !Fresh(cache[key], clock.cacheLookup) && o.cache == cache - {key}))
  {
  }

  // ---------------------------------------------------------------------------
  // Two calls
  // ---------------------------------------------------------------------------

  /**
   * Two identical requests: if the first one was admitted, missed the cache and
   * got a reply that is not all whitespace, so a non-empty summary, a second one admitted less than
   * an hour after the store returns that summary without calling the provider,
   * whatever it would answer.
   */
  lemma RepeatServedFromCache(
    rateLimits: map<string, seq<Instant>>, cache: map<string, CacheEntry>,
    md5: string -> string,
    text: string, maxLength: int, ip1: string, ip2: string,
    clock1: Readings, reply1: ProviderReply, clock2: Readings, reply2: ProviderReply)
    requires Succeeded(reply1)
    requires exists k :: 0 <= k < |reply1.outputText| && !IsSpace(reply1.outputText[k])
    requires Check(rateLimits, ip1, clock1.rateCheck).0
    requires !Truthy(Get(cache, GenerateCacheKey(md5, text, maxLength), clock1.cacheLookup).summary)
    requires Check(Check(rateLimits, ip1, clock1.rateCheck).1, ip2, clock2.rateCheck).0
    requires clock2.cacheLookup - clock1.cacheStore < CacheTtl
    ensures var o1 := Summarize(rateLimits, cache, md5, text, maxLength, ip1, clock1, reply1);
      var o2 := Summarize(o1.rateLimits, o1.cache, md5, text, maxLength, ip2, clock2, reply2);
      && o1.result == Success(Strip(reply1.outputText))
      && o2.result == o1.result
      && !o2.providerCalled
      && o2.cache == o1.cache
  {
    StripEmptyIffAllSpace(reply1.outputText);
  }

  /**
   * A status-200 reply of only whitespace is returned as "" and cached as "",
   * but the empty entry is not truthy: the next identical request calls the
   * provider again, however soon it comes.
   */
  lemma BlankReplyCallsProviderAgain(
    rateLimits: map<string, seq<Instant>>, cache: map<string, CacheEntry>,
    md5: string -> string,
    text: string, maxLength: int, ip1: string, ip2: string,
    clock1: Readings, reply1: ProviderReply, clock2: Readings, reply2: ProviderReply)
    requires Succeeded(reply1)
    requires forall k :: 0 <= k < |reply1.outputText| ==> IsSpace(reply1.outputText[k])
    requires Check(rateLimits, ip1, clock1.rateCheck).0
    requires !Truthy(Get(cache, GenerateCacheKey(md5, text, maxLength), clock1.cacheLookup).summary)
    requires Check(Check(rateLimits, ip1, clock1.rateCheck).1, ip2, clock2.rateCheck).0
    ensures var key := GenerateCacheKey(md5, text, maxLength);
      var o1 := Summarize(rateLimits, cache, md5, text, maxLength, ip1, clock1, reply1);
      var o2 := Summarize(o1.rateLimits, o1.cache, md5, text, maxLength, ip2, clock2, reply2);
      && o1.result == Success("")
      && key in o1.cache && o1.cache[key] == CacheEntry("", clock1.cacheStore)
      && o2.providerCalled
  {
    StripEmptyIffAllSpace(reply1.outputText);
  }

  // ---------------------------------------------------------------------------
  // The service object
  // ---------------------------------------------------------------------------

  /** The external summarisation provider: a reply per call, and a log of the calls made. */
  class Provider {
    /** The reply to a request, given how many calls came before it. */
    const respond: (ProviderRequest, nat) -> ProviderReply
    var calls: seq<ProviderRequest>

    constructor (respond: (ProviderRequest, nat) -> ProviderReply)
      ensures this.respond == respond && calls == []
    {
      this.respond := respond;
      calls := [];
    }

    /** `dashscope.Generation.call`. */
    method Call(request: ProviderRequest) returns (reply: ProviderReply)
      modifies this`calls
      ensures reply == respond(request, |old(calls)|)
      ensures calls == old(calls) + [request]
    {
      reply := respond(request, |calls|);
      calls := calls + [request];
    }
  }

  /** The module's shared state and the four functions that use it. */
  class SummarizeService {
    /** `rate_limits`: per client, the instants of its admitted requests. */
    var rateLimits: map<string, seq<Instant>>
    /** `summary_cache`: per key, the summary and when it was stored. */
    var summaryCache: map<string, CacheEntry>
    /** `hashlib.md5(...).hexdigest()`. */
    const md5: string -> string
    /** The configured model name. */
    const qwenModel: string

    /** The invariant the rate table keeps; the cache takes no part in it. */
    ghost predicate Valid()
      reads this`rateLimits
    {
      WithinCap(rateLimits)
    }

    constructor (md5: string -> string, qwenModel: string)
      ensures Valid()
      ensures rateLimits == map[] && summaryCache == map[]
      ensures this.md5 == md5 && this.qwenModel == qwenModel
    {
      rateLimits := map[];
      summaryCache := map[];
      this.md5 := md5;
      this.qwenModel := qwenModel;
    }

    /** `check_rate_limit`. */
    method CheckRateLimit(clientIp: string, now: Instant) returns (allowed: bool)
      requires Valid()
      modifies this`rateLimits
      ensures Valid()
      ensures (allowed, rateLimits) == Check(old(rateLimits), clientIp, now)
      ensures allowed <==> |Prune(History(old(rateLimits), clientIp), now)| < RateLimitMaxRequests
      ensures forall t :: t in rateLimits[clientIp] ==> InWindow(t, now)
    {
      // A new client starts with an empty list, which is then pruned.
      var history := if clientIp in rateLimits then rateLimits[clientIp] else [];
      var kept := PruneWindow(history, now);
      CheckKeepsWindowAndCap(rateLimits, clientIp, now);
      if |kept| >= RateLimitMaxRequests {
        rateLimits := rateLimits[clientIp := kept];
        return false;
      }
      rateLimits := rateLimits[clientIp := kept + [now]];
      return true;
    }

    /** `get_cached_summary`. */
    method GetCachedSummary(key: string, now: Instant) returns (summary: Option<string>)
      modifies this`summaryCache
      ensures Valid() <==> old(Valid())
      ensures key !in old(summaryCache) ==> summary == None && summaryCache == old(summaryCache)
      ensures key in old(summaryCache) && Fresh(old(summaryCache)[key], now) ==>
        summary == Some(old(summaryCache)[key].summary) && summaryCache == old(summaryCache)
      ensures key in old(summaryCache) && !Fresh(old(summaryCache)[key], now) ==>
        summary == None && summaryCache == old(summaryCache) - {key}
      ensures Lookup(summary, summaryCache) == Get(old(summaryCache), key, now)
    {
      if key in summaryCache {
        var cached := summaryCache[key];
        if now - cached.timestamp < CacheTtl {
          return Some(cached.summary);
        }
        summaryCache := summaryCache - {key};
      }
      return None;
    }

    /** `cache_summary`. */
    method CacheSummary(key: string, summary: string, now: Instant)
      modifies this`summaryCache
      ensures Valid() <==> old(Valid())
      ensures summaryCache == old(summaryCache)[key := CacheEntry(summary, now)]
    {
      summaryCache := summaryCache[key := CacheEntry(summary, now)];
    }

    /** `summarize_with_qwen`. */
    method SummarizeWithQwen(text: string, maxLength: int, clientIp: string, clock: Readings, provider: Provider)
      returns (result: Result<string, SummarizeError>)
      requires Valid()
      modifies this`rateLimits, this`summaryCache, provider`calls
      ensures Valid()
      ensures var request := Request(qwenModel, text, maxLength);
        var o := Summarize(old(rateLimits), old(summaryCache), md5, text, maxLength, clientIp, clock,
                           provider.respond(request, |old(provider.calls)|));
        && result == o.result
        && rateLimits == o.rateLimits
        && summaryCache == o.cache
        && provider.calls == old(provider.calls) + (if o.providerCalled then [request] else [])
    {
      // The specified outcome, named once so that each return path is checked against it.
      ghost var outcome := Summarize(rateLimits, summaryCache, md5, text, maxLength, clientIp, clock,
                                     provider.respond(Request(qwenModel, text, maxLength), |provider.calls|));
      var allowed := CheckRateLimit(clientIp, clock.rateCheck);
      if !allowed {
        return Failure(RateLimitExceeded(RateLimitMessage()));
      }
      var key := GenerateCacheKey(md5, text, maxLength);
      var cached := GetCachedSummary(key, clock.cacheLookup);
      if cached.Some? && cached.value != "" {
        return Success(cached.value);
      }
      var reply := provider.Call(Request(qwenModel, text, maxLength));
      if reply.Response? && reply.statusCode == StatusOk {
        var summary := Strip(reply.outputText);
        CacheSummary(key, summary, clock.cacheStore);
        return Success(summary);
      }
      return Failure(SummarizationFailed(FailurePrefix + ProviderError(reply)));
    }
  }
}
