# Web-Summarizer: the summarisation pipeline, modelled in Dafny

The Web-Summarizer backend turns a URL or a piece of text into a short summary
by asking a large-language-model provider (Qwen, through DashScope). Its core
is `backend/app/services/summarize.py`. That file keeps two process-wide
dictionaries and runs every request through four steps:

1. A **sliding-window rate limiter**. Per client, it stores the instants of the
   requests it admitted. On each check it drops the instants that are 60
   seconds old or older. It refuses when 30 or more are left. Otherwise it
   records "now".
2. **Cache-key derivation**. The key is the MD5 digest of `f"{text}_{max_length}"`.
3. A **TTL cache**. It maps a key to a summary and the time it was stored. A
   lookup that finds an entry one hour old or older deletes it and reports a
   miss. A store always overwrites.
4. The **orchestrator** `summarize_with_qwen`. It runs the rate check, the key,
   then the cache lookup. On a miss it calls the provider once. On status 200 it
   strips the answer, caches it and returns it. Any other outcome raises
   `"Failed to generate summary: ..."`.

The model has one module per component:

- `rate_limiter.dfy` (`RateLimiter`): the constants, the pruning of a client's
  list (`Prune`, and `PruneWindow`, the loop that computes it), one check on a
  client's list (`Admit`) and on the whole table (`Check`). Lemmas cover
  pruning, the cap, other clients, first requests, a quiet window, a burst
  of requests and requests spread out in time.
- `cache_key.dfy` (`CacheKey`): the hashed string and the key. The string is
  read back by `SplitPreimage`, which proves that it determines
  `(text, max_length)`.
- `text.dfy` (`Text`): Python's `str.strip()` and `str(int)`, as the pipeline
  uses them.
- `summary_cache.dfy` (`SummaryCache`): the entry, the freshness test, `Get`
  and `Put` on a map, and how they interact.
- `summarize.dfy` (`Summarize`): the errors, the provider request and reply,
  `Summarize` (the whole pipeline as a function of the state), its lemmas, and
  two classes. `SummarizeService` holds the two dictionaries as fields. Its
  methods `CheckRateLimit`, `GetCachedSummary`, `CacheSummary` and
  `SummarizeWithQwen` update them in place. Each method is proved to leave
  exactly the state the specification functions give. `Provider` stands for
  the DashScope call and logs every call made to it, so the model can say when
  the provider is and is not called.
- `wrappers.dfy`: `Option`, `Result` and the `Instant` type.

Outside inputs are parameters:

- **Clock.** An instant is an `int` number of microseconds, the resolution of
  `datetime`. A call reads the clock up to three times: in the rate check, in the
  cache lookup when the key is present, and in the cache store after a
  status-200 reply. A refused call reads it once. These readings are the
  `Readings` argument; a reading the call does not take is left unused. The
  model does not assume the clock is monotonic, because `datetime.now()` is
  wall-clock time. No property below assumes it either.
- **MD5.** It is the service's `md5` field, a function on strings. The key is
  proved to identify the request for any collision-free hash.
- **Provider.** Its answer to the n-th call is `respond(request, n)`.

The model follows these details of the code:

- An entry exactly one hour old is already expired. The code keeps an entry only
  while `now - timestamp < 1h`.
- An empty cached summary is a miss (`if cached:`), not a hit.
- A non-200 reply fails with the message
  `"Failed to generate summary: Qwen API error: <message or 'Unknown error'>"`.
  This happens because the code raises inside its own `try` and wraps the
  exception again.
- `RateLimitExceeded` is raised before the `try`, so it is not wrapped. Its
  message is `"Rate limit exceeded. Please try again in 60 seconds."`.

## Model

| member | source | states |
|---|---|---|
| RateLimiter.Prune | backend/app/services/summarize.py:42-45 | specification of the comprehension: the stored timestamps with `now - ts < 60 s`, in stored order; the Prune lemmas below state its properties |
| RateLimiter.PruneWindow | backend/app/services/summarize.py:42-45 | the comprehension loop returns exactly `Prune(ts, now)`: the stored timestamps still inside the window, in their stored order |
| RateLimiter.PruneMembership | backend/app/services/summarize.py:42-45 | a timestamp survives pruning if and only if it was stored and `now - ts < 60 s` |
| RateLimiter.PruneConcat | backend/app/services/summarize.py:42-45 | pruning is a filter: it distributes over concatenation, so survivors keep their original order |
| RateLimiter.PruneLength | backend/app/services/summarize.py:42-45 | pruning never lengthens a client's list |
| RateLimiter.PruneKeepsSorted | backend/app/services/summarize.py:42-45 | a list in clock order stays in clock order after pruning |
| RateLimiter.PruneAllFresh | backend/app/services/summarize.py:42-45 | a list whose entries are all inside the window is kept whole |
| RateLimiter.PruneAllStale | backend/app/services/summarize.py:42-45 | a list whose entries are all 60 s old or older is emptied |
| RateLimiter.PruneCount | backend/app/services/summarize.py:42-48 | the length compared with the cap is the number of stored timestamps inside the window |
| RateLimiter.PruneLater | backend/app/services/summarize.py:42-45 | pruning at one instant and then at a later one keeps what pruning at the later one alone keeps |
| RateLimiter.Admit | backend/app/services/summarize.py:41-53 | specification of one check on a client's list: prune, refuse when 30 or more survive, otherwise append `now`; the Admit lemmas below state its properties |
| RateLimiter.Check | backend/app/services/summarize.py:33-53 | specification of `check_rate_limit` on the whole table: a client not seen before starts from an empty list, and only its entry is replaced; the Check lemmas below state its properties |
| RateLimiter.AdmitWindowIsFresh | backend/app/services/summarize.py:42-52 | after a check, every timestamp stored for the client satisfies `now - ts < 60 s` |
| RateLimiter.AdmitCountsSurvivors | backend/app/services/summarize.py:47-53 | admitted if and only if fewer than 30 survive pruning; an admitted check appends exactly `now` to the survivors, a refused one appends nothing |
| RateLimiter.AdmitRespectsCap | backend/app/services/summarize.py:47-53 | a list of at most 30 entries stays at most 30; an admitted list always holds at most 30 |
| RateLimiter.CheckPreservesCap | backend/app/services/summarize.py:33-53 | if no client holds more than 30 timestamps before a check, none does after it |
| RateLimiter.CheckTouchesOnlyClient | backend/app/services/summarize.py:38-52 | a check leaves every other client's entry (presence and list) unchanged |
| RateLimiter.CheckKeepsWindowAndCap | backend/app/services/summarize.py:33-53 | after a check the table is within the cap, the verdict is "fewer than 30 survivors", and the client's list lies inside the window |
| RateLimiter.FirstRequestAdmitted | backend/app/services/summarize.py:37-53 | a client seen for the first time is admitted and its list becomes `[now]` |
| RateLimiter.QuietWindowReadmits | backend/app/services/summarize.py:41-53 | when every stored timestamp is 60 s old or older, the client is admitted again and its list becomes `[now]` |
| RateLimiter.BurstStep | backend/app/services/summarize.py:41-53 | the first check of a burst prunes nothing, is admitted if and only if fewer than 30 are stored, and leaves a list inside the window of every later request of the burst |
| RateLimiter.ReplayBurst | backend/app/services/summarize.py:33-53 | in a burst of checks all within one window of each other and of the stored list, the k-th check is admitted if and only if the stored count plus k is below 30 |
| RateLimiter.BurstAdmitsExactlyTheCap | backend/app/services/summarize.py:13-53 | a new client sending requests within one 60 s window has exactly its first 30 admitted and every later one refused |
| RateLimiter.RoomInWindow | backend/app/services/summarize.py:42-48 | a request that is at most the 30th inside its 60 s window finds fewer than 30 earlier ones surviving pruning |
| RateLimiter.PruneMultiset | backend/app/services/summarize.py:42-45 | pruning keeps every occurrence of a timestamp inside the window and no occurrence of one outside it |
| RateLimiter.PruneSubMultiset | backend/app/services/summarize.py:42-48 | a list holding no timestamp more often than another keeps no more entries through pruning, so its count at line 48 is no larger |
| RateLimiter.AdmitWithRoom | backend/app/services/summarize.py:41-53 | a client whose stored list holds only earlier requests, fewer than 30 of them in the window, is admitted, and its new list again holds only requests made so far |
| RateLimiter.ReplayAdmitsAll | backend/app/services/summarize.py:33-53 | a run of checks is all admitted when its first check is and the checks after it are |
| RateLimiter.ReplayAll | backend/app/services/summarize.py:33-53 | when the stored list holds only earlier requests and no 60 s window holds more than 30 requests, every coming check is admitted, whatever order the clock readings come in |
| RateLimiter.SpreadOutRequestsAdmitted | backend/app/services/summarize.py:13-53 | a new client with at most 30 requests in the 60 s window ending at each of its requests is never refused, with the clock readings in any order |
| Text.IntToDecimal | backend/app/services/summarize.py:58 | `str(max_length)` contains no underscore |
| Text.IntToDecimalRoundTrip | backend/app/services/summarize.py:58 | `str(n)` parses back to `n` |
| Text.IntToDecimalInjective | backend/app/services/summarize.py:58 | two integers render alike if and only if they are equal |
| CacheKey.Preimage | backend/app/services/summarize.py:58 | the hashed string starts with the text, then an underscore, and has no underscore after it |
| CacheKey.GenerateCacheKey | backend/app/services/summarize.py:55-58 | specification of `generate_cache_key`: the hash of the preimage; `CacheKeyIdentifiesRequest` states its property |
| CacheKey.SplitPreimageRoundTrip | backend/app/services/summarize.py:58 | splitting `f"{text}_{max_length}"` at its last underscore gives back `(text, max_length)`, even when the text holds underscores |
| CacheKey.PreimageInjective | backend/app/services/summarize.py:58 | the hashed string is equal for two requests if and only if their text and max length are equal |
| CacheKey.CacheKeyIdentifiesRequest | backend/app/services/summarize.py:55-58 | for a collision-free hash, two cache keys are equal if and only if the requests have equal text and max length |
| SummaryCache.Get | backend/app/services/summarize.py:60-68 | specification of `get_cached_summary`: the summary when the entry is younger than one hour, otherwise none, with an expired entry deleted; the lemmas below state its properties |
| SummaryCache.Put | backend/app/services/summarize.py:70-75 | specification of `cache_summary`: the key is set to the summary and the store time; the lemmas below state its properties |
| SummaryCache.GetHitsIffFresh | backend/app/services/summarize.py:60-68 | a lookup hits if and only if an entry under the key is younger than one hour, and then returns its summary; the cache changes at most by removing that key; other keys are untouched |
| SummaryCache.GetIdempotent | backend/app/services/summarize.py:60-68 | a second lookup at the same instant gives the same answer and changes nothing further |
| SummaryCache.PutThenGetFresh | backend/app/services/summarize.py:60-75 | a summary stored at `t` is returned, with the cache unchanged, by a lookup less than an hour after `t` |
| SummaryCache.PutThenGetExpired | backend/app/services/summarize.py:60-75 | a lookup an hour or more after the store reports a miss and leaves the cache without that key, all others as before |
| SummaryCache.PutOverwrites | backend/app/services/summarize.py:70-75 | a store overwrites unconditionally: the last store under a key wins |
| Text.Strip | backend/app/services/summarize.py:127 | the stripped summary starts and ends with a non-whitespace character (or is empty) and is no longer than the reply |
| Text.StripRemovesOnlySpace | backend/app/services/summarize.py:127 | the stripped summary is the slice of the reply after its leading whitespace, and everything after it is whitespace |
| Text.StripIdempotent | backend/app/services/summarize.py:127 | stripping an already stripped summary changes nothing |
| Text.StripEmptyIffAllSpace | backend/app/services/summarize.py:127 | a reply strips to the empty string if and only if it is all whitespace |
| Summarize.RateLimitMessage | backend/app/services/summarize.py:98-100 | the refusal message reads "Rate limit exceeded. Please try again in 60 seconds." |
| Summarize.Prompt | backend/app/services/summarize.py:118 | the prompt ends with the whole text, verbatim, after the instruction |
| Summarize.ProviderError | backend/app/services/summarize.py:132-134 | specification of the error raised inside the `try`: "Qwen API error: " and the reply's message or "Unknown error"; a raised exception keeps its own text |
| Summarize.Summarize | backend/app/services/summarize.py:77-139 | specification of `summarize_with_qwen` on explicit state; the lemmas below and `SummarizeWithQwen` state its properties |
| Summarize.RefusedCallTouchesNothingElse | backend/app/services/summarize.py:95-100 | when 30 or more requests survive pruning, the call raises `RateLimitExceeded` with the 60-second message, leaves the cache as it was, does not call the provider, and stores the pruned list |
| Summarize.AdmittedCallTakesASlot | backend/app/services/summarize.py:95-107 | every admitted call, a cache hit included, appends `now` to the client's pruned list and does not raise `RateLimitExceeded` |
| Summarize.ProviderCalledIffMiss | backend/app/services/summarize.py:102-107 | an admitted call calls the provider if and only if no fresh non-empty summary is cached under the key; otherwise it returns that summary and leaves the cache unchanged |
| Summarize.SuccessComesFromCacheOrProvider | backend/app/services/summarize.py:102-130 | a returned summary is either a non-empty cached one (provider not called) or the stripped text of a status-200 reply; then the cache is the old one with the key set to that summary and the store time, every other key unchanged |
| Summarize.MissWithStatusOkIsStored | backend/app/services/summarize.py:102-130 | an admitted call whose lookup finds no non-empty summary and whose provider replies with status 200 calls the provider, returns the stripped text, an empty one included, and stores it under the key with the store time; every other key unchanged |
| Summarize.FailureLeavesCacheAlone | backend/app/services/summarize.py:109-139 | when the provider fails, the call raises a message starting "Failed to generate summary: " and nothing is stored; the cache is unchanged except for an expired entry the lookup removed |
| Summarize.RepeatServedFromCache | backend/app/services/summarize.py:102-130 | after a call that got a non-empty summary from the provider, an identical admitted request less than an hour after the store returns the same summary without a second provider call |
| Summarize.BlankReplyCallsProviderAgain | backend/app/services/summarize.py:102-130 | a status-200 reply of only whitespace is returned and cached as the empty string, and since an empty cached summary is a miss, the next identical admitted request calls the provider again |
| Summarize.Provider.Call | backend/app/services/summarize.py:116-122 | one provider call: the reply is the provider's answer to this request, and the call is appended to the provider's log |
| Summarize.SummarizeService.constructor | backend/app/services/summarize.py:16-18 | the service starts with an empty rate table and an empty cache |
| Summarize.SummarizeService.CheckRateLimit | backend/app/services/summarize.py:33-53 | updates `rate_limits` in place to exactly what `Check` gives and returns its verdict; keeps every list within 30 entries; leaves the client's list inside the window |
| Summarize.SummarizeService.GetCachedSummary | backend/app/services/summarize.py:60-68 | three cases: key absent gives None with the cache unchanged; fresh entry gives its summary with the cache unchanged; expired entry gives None and removes only that key; equal to `Get`; the rate-table invariant is untouched |
| Summarize.SummarizeService.CacheSummary | backend/app/services/summarize.py:70-75 | sets the entry for the key to `(summary, now)` whether or not it existed; every other key unchanged; the rate-table invariant is untouched |
| Summarize.SummarizeService.SummarizeWithQwen | backend/app/services/summarize.py:77-139 | result, rate table and cache are exactly `Summarize` of the old state; the provider log grows by this request when the provider was called and is unchanged otherwise |

## Left out

- `backend/app/services/fetch.py` (HTTP fetch and HTML text extraction) is not part of this model. It is I/O over libraries that are not modelled.
- `backend/app/routers/summarize.py`, `backend/app/main.py`, `backend/app/config.py` and `backend/app/models/schemas.py` are not part of this model. They hold routing, CORS, the health endpoint, settings loading and pydantic classes, with no logic to verify. The routers call `summarize_text(content, max_length)` without a client address. So in the running service every request uses the client `"default"`, and the limit of 30 per minute applies to all users together. The model keeps `client_ip` a parameter, as the core function takes it.
- MD5 is a parameter. The model does not capture that its output is a 32-character hex digest, or that real collisions are possible. The key property is proved for a collision-free hash only.
- `.encode()` before hashing is not modelled. UTF-8 encoding is injective, so it does not change which requests share a key. A string with a lone surrogate makes `.encode()` raise outside the `try`, after the rate slot is used. Dafny strings cannot hold lone surrogates, so the model does not capture this.
- `setup_qwen_client` and the `dashscope.api_key` check (lines 24-27, 111-112) are not modelled. They set process-wide configuration and have no effect on the pipeline's state.
- `temperature=0.3` and `top_p=0.8` are floats passed straight to the provider. The provider request keeps only the model name, the prompt and `max_tokens`.
- The provider's reply is modelled as a status code, an output text and an optional `message`, or as a raised exception with its text. A status-200 response without `output.text` raises inside the `try`, which is the "raised" case.
- `max_length=None` is not modelled: every member takes the length as an integer. The request schema declares `max_length: Optional[int]`, and the routers pass it on unchanged, so a JSON `null` reaches `summarize_with_qwen`. The code then hashes `f"{text}_None"`, asks for "about None characters" and sends `max_tokens=None`. The rendering "None" has no underscore and is not a decimal numeral, so such a preimage would still differ from every preimage with an integer length. The model does not prove this.
- The defaults `max_length=300` and `client_ip="default"` (line 77) are not modelled. Every call in the model passes both arguments.
- Logging is not modelled.
- `async`/`await` is not modelled. `summarize_with_qwen` never suspends: `get_cached_summary` is `async` but awaits nothing, and `dashscope.Generation.call` is synchronous. So on one event loop each call runs to completion before the next starts, and the sequential model is exact for one process. Several worker processes would each hold their own dictionaries; the model covers one. Cancellation (`CancelledError`) is not caught by `except Exception` and is not modelled either.
- Memory growth is not bounded. As in the code, clients and keys are never swept; only the per-client list is bounded, by the cap.
