# Facebook lead-access app — a Dafny model of its core

This project models the server and client logic of a Next.js application.
The application signs a user in with Facebook, lists the Facebook pages they
manage and fetches each page's lead-generation leads from the Graph API. The
model covers:

- the generic retry executor with exponential backoff and jitter (`Retry`);
- the Graph API client that retries on transient vendor error codes (`ApiClient`);
- the error reporter: message and context sanitising, Facebook error
  extraction, the bounded report queue and its flush, and the transient-code
  and message tables (`ErrorReporting`);
- the permission check run after sign-in (`FacebookPermissions`);
- the `/api/facebook/pages` and `/api/facebook/leads` route handlers
  (`PagesRoute`, `LeadsRoute`);
- the in-memory response cache (`CacheStore`);
- the per-client, per-route token-bucket rate limiter (`RateLimit`);
- the `/api/metrics` route and its bounded store (`MetricsRoute`);
- the `usePagination`, `useKeyboardNavigation` and `useKeyboardShortcuts`
  hooks, and the selection state of the `PageSelector` component.

Thrown JavaScript values are modelled in `JsErrors`. Shared helpers live in
`Common`: `Option`, keeping the newest `n` elements, decimal rendering and
parsing, and ASCII case mapping.

Code that changes state in place is modelled as classes: the cache, the error
reporter, the token bucket and its registry, the metrics store, the keyboard
navigator and the page selector. Each state-changing method is proved equal
to a specification function of the old state. The properties are proved as
lemmas about those functions. Loops in the source are `while` loops with
invariants: the retry loop, the page-number loop, the shortcut search and the
cache cleanup. Clocks, `Math.random`, `fetch`, the session and the DOM are
parameters. The retry executor takes, for each attempt `k`, that attempt's
outcome and the random number used for its jitter.

Behaviour of the code that the model keeps as written:

- A non-OK HTTP response is rejected with a plain `HTTP error! status: …`
  before its body's vendor error is looked at. Such a failure has no vendor
  code, so the client retries it.
- Code 190 (invalid token) is not in the transient-error table.
- The permission check reads only `/me/permissions`. It performs no
  page-`tasks` check.
- `flush` empties the queue before it sends. When sending fails, the catch
  re-adds the already-emptied queue, so the batch is dropped.
  `ErrorReporting.ErrorReporter.Flush` states this behaviour.

## Model

| member | source | states |
|---|---|---|
| Retry.ResolveConfig | src/utils/retry.ts:10-15 | each option missing from the caller's options takes its default (3 retries, 1000 ms, 10000 ms, factor 2), and each given option wins |
| Retry.IsFacebookError | src/utils/retry.ts:25-27 | an error is a Facebook error only with a nested code, and a code of 0 does not count |
| Retry.ShouldRetryFacebookError | src/utils/retry.ts:29-54 | an error is refused exactly when it is a Facebook error whose code is one of 190, 200, 10 or 2500 |
| Retry.DefaultPredicateRefusesOnlyFatalCodes | src/utils/retry.ts:72-76 | without a caller predicate, the executor refuses to retry exactly the fatal Facebook codes |
| Retry.NextDelay | src/utils/retry.ts:60-66 | with a random number in [0, 1) and a positive base, the delay lies between the capped base and 1.25 times it; a random number of 0 adds no jitter |
| Retry.NextDelayBounds | src/utils/retry.ts:60-66 | the delay before a retry lies between the capped exponential base and 1.25 times it, so it stays below 1.25 times the maximum delay |
| Retry.JitterBelowBase | src/utils/retry.ts:64-65 | up to 25% jitter never shortens the base delay and adds less than a quarter of it |
| Retry.BaseDelay | src/utils/retry.ts:61-63 | the exponential base delay is capped at the maximum delay |
| Retry.RetryWithBackoff | src/utils/retry.ts:68-101 | the loop's outcome and its rounds (delay, retry notice, attempt outcome) equal the recursive schedule `Run` |
| Retry.RunLength | src/utils/retry.ts:80-101 | the schedule has no rounds exactly when no attempts remain, and it then rejects with the last error (or `null`); it never exceeds the remaining attempts |
| Retry.RunRound | src/utils/retry.ts:80-99 | round `i` invokes the operation for attempt `k + i` after the scheduled delay, and follows a failure that the predicate allowed to retry |
| Retry.RunSettles | src/utils/retry.ts:80-99 | the last round is final (a success, a refusal or the last attempt), and the outcome is that round's result |
| Retry.AttemptBound | src/utils/retry.ts:80-101 | at most `maxRetries + 1` attempts, and a negative `maxRetries` makes no attempt and throws `null` |
| Retry.AllFailuresExhaustAttempts | src/utils/retry.ts:80-99 | when every attempt fails retryably, all `maxRetries + 1` attempts run and the last error is thrown |
| Retry.RoundsFollowSchedule | src/utils/retry.ts:80-99 | the first attempt runs at once without a notice; attempt `i > 0` follows a failure, waits `getNextDelay(i - 1)` and notifies `onRetry(error, i)` when a callback is given |
| Retry.StopsAtFirstSuccessOrRefusal | src/utils/retry.ts:82-96 | every round but the last is a retried failure, and the outcome is the last round's result |
| Retry.FirstSuccessIsReturned | src/utils/retry.ts:82-83 | a first attempt that succeeds is returned after exactly one round with no delay |
| ApiClient.NewApiError | src/utils/api-client.ts:4-16 | an `ApiError` carries the vendor message (or ""), code, subcode and trace id |
| ApiClient.AttemptOnce | src/utils/api-client.ts:23-42 | one attempt fails with the network error, a JSON parse error, an HTTP error for a non-OK status, or an `ApiError` for a vendor error; it succeeds exactly when an OK JSON body has no error, and then yields its `data` |
| ApiClient.ApiShouldRetry | src/utils/api-client.ts:44-52 | an `ApiError` is retried exactly when its code is 1, 2, 4 or 17; any other error is retried exactly when it has no response or a 5xx one |
| ApiClient.FetchWithRetry | src/utils/api-client.ts:18-54 | a fetch runs the retry schedule with 3 retries, making between 1 and 4 attempts |
| ApiClient.AttemptFailuresRetryPolicy | src/utils/api-client.ts:34-52 | a failure without vendor fields is always retried; a vendor failure is retried exactly for the transient codes |
| ApiClient.VendorErrorOnHttpFailureExhaustsRetries | src/utils/api-client.ts:34-36 | a 400 response carrying a vendor error is tried 4 times and ends in the HTTP error |
| ApiClient.InvalidTokenIsNotRetried | src/utils/api-client.ts:38-52 | an OK response carrying vendor code 190 is tried once and ends in that `ApiError` |
| ApiClient.ServerErrorsThenSuccess | src/utils/api-client.ts:18-54 | two server errors followed by success resolve after 3 attempts with the data |
| ApiClient.FinalRequest | src/utils/api-client.ts:23-30 | the request keeps the method and body, and it sends the JSON default headers unless the caller overrides them |
| ApiClient.SentRequests | src/utils/api-client.ts:57-70 | `get` sends GET and `post` sends POST with the serialised body, both with the default headers |
| ErrorReporting.FirstParamMatch | src/utils/error-reporting.ts:31 | finds the leftmost match of `?access_token=` or `&access_token=` followed by a character other than `&`, at or after a position, or reports that none exists |
| ErrorReporting.FirstTokenMatch | src/utils/error-reporting.ts:32 | finds the leftmost `EAA` followed by a letter or digit, at or after a position, or reports that none exists |
| ErrorReporting.RedactAccessTokenParam | src/utils/error-reporting.ts:31 | a message without a match is unchanged; otherwise only the leftmost match, up to the next `&` or the end, becomes `?access_token=[REDACTED]` |
| ErrorReporting.RedactBearerToken | src/utils/error-reporting.ts:32 | a message without a match is unchanged; otherwise only the leftmost `EAA` with its whole alphanumeric run becomes `[REDACTED_TOKEN]` |
| ErrorReporting.SanitizeErrorMessage | src/utils/error-reporting.ts:30-33 | without a token parameter only the bearer-token replacement applies; a message with neither pattern is unchanged |
| ErrorReporting.SanitizeLeavesCleanMessages | src/utils/error-reporting.ts:30-33 | a message containing neither pattern is reported unchanged |
| ErrorReporting.SanitizeKeepsParamMarker | src/utils/error-reporting.ts:30-33 | after a message with an `access_token=` parameter is sanitised, it still shows the parameter's redaction marker |
| ErrorReporting.ExtractFacebookError | src/utils/error-reporting.ts:35-65 | a falsy error gives the empty details; a nested error with a message wins, then a top-level message with a code; any other object gets the top-level message or "Unknown Facebook Error", with the top-level code and type and nothing else |
| ErrorReporting.SanitizeContext | src/utils/error-reporting.ts:220-233 | the same keys; truthy sensitive values become `[REDACTED]`, and everything else is kept |
| ErrorReporting.SanitizeContextIsIdempotent | src/utils/error-reporting.ts:220-233 | sanitising twice is sanitising once |
| ErrorReporting.CaptureReport | src/utils/error-reporting.ts:118-140 | a captured error is reported with its sanitised message, its error name as type, no context, and the given URL and timestamp |
| ErrorReporting.PlainReport | src/utils/error-reporting.ts:166-177 | a report carries the error's message, the sanitised context and the context's type (or "unknown"), with the given URL and timestamp |
| ErrorReporting.FacebookReport | src/utils/error-reporting.ts:196-218 | a Facebook report carries the sanitised extracted message (or "Facebook API Error"), the code, type and trace id, and as context the sanitised caller context with the subcode added, with the given URL and timestamp |
| ErrorReporting.Enqueue | src/utils/error-reporting.ts:235-245 | a queued report is the newest entry, and the queue grows only while it has room |
| ErrorReporting.QueueKeepsNewest | src/utils/error-reporting.ts:235-245 | queueing reports one at a time keeps exactly the newest 50 of all reports |
| ErrorReporting.ErrorReporter.constructor | src/utils/error-reporting.ts:77-81 | the reporter starts with an empty queue, and it is a client exactly when a window exists |
| ErrorReporting.ErrorReporter.InitializeIfClient | src/utils/error-reporting.ts:83-91 | the first call with a window marks the reporter as a client; later calls change nothing |
| ErrorReporting.ErrorReporter.CaptureError | src/utils/error-reporting.ts:118-140 | initialises if needed and queues the captured report, with the page URL on a client and "server" otherwise |
| ErrorReporting.ErrorReporter.QueueError | src/utils/error-reporting.ts:235-245 | the queue becomes the bounded queue with the report appended |
| ErrorReporting.ErrorReporter.Report | src/utils/error-reporting.ts:166-177 | queues the plain report |
| ErrorReporting.ErrorReporter.ReportApiError | src/utils/error-reporting.ts:179-194 | queues a report of type `api_error` with the endpoint, wrapping a non-`Error` value |
| ErrorReporting.ErrorReporter.ReportFacebookError | src/utils/error-reporting.ts:196-218 | queues the Facebook report |
| ErrorReporting.ErrorReporter.Flush | src/utils/error-reporting.ts:142-164 | the whole queue is taken as the batch and the queue is left empty; the batch is delivered only in production with a non-empty queue and a working sink |
| ErrorReporting.ApiErrorOf | src/utils/error-reporting.ts:179-194 | an `Error` is reported as itself, a string as an `Error` with that message, and anything else as an `Error` saying "Unknown API error" |
| ErrorReporting.ApiErrorContext | src/utils/error-reporting.ts:179-194 | the context gains type `api_error` and the endpoint, keeps its other keys, and gains `originalError` exactly for a value that is not an `Error`: the string itself for a string, an opaque object otherwise; a caller's `originalError` is kept for an `Error` |
| ErrorReporting.IsFacebookTransientError | src/utils/error-reporting.ts:247-259 | a code is transient exactly when it is 1, 2, 4, 17, 341 or 368 |
| ErrorReporting.TransientTableAgreesWithRetryPolicies | src/utils/error-reporting.ts:247-259 | the transient codes exclude the fatal codes of the retry executor, and they are the client's retryable codes plus 341 and 368 |
| ErrorReporting.GetFacebookErrorMessage | src/utils/error-reporting.ts:261-275 | a listed code gets its table message and any other code the generic message |
| ErrorReporting.FacebookMessageTable | src/utils/error-reporting.ts:261-275 | a known code gets its message and any other code the generic one; every transient code has a message |
| FacebookPermissions.GrantedPermissions | src/utils/facebook-permissions.ts:11-15 | a permission is granted exactly when some entry grants it |
| FacebookPermissions.DeclinedEntriesNeverCount | src/utils/facebook-permissions.ts:11-15 | an entry that is not `granted` adds no permission |
| FacebookPermissions.MissingPermissions | src/utils/facebook-permissions.ts:17-19 | the missing list is no longer than the required list, and every entry in it is required and not granted |
| FacebookPermissions.MissingIsExactlyUngranted | src/utils/facebook-permissions.ts:17-19 | a permission is missing exactly when it is required and not granted, and nothing is missing exactly when every required one is granted |
| FacebookPermissions.MissingKeepsOrder | src/utils/facebook-permissions.ts:17-19 | missing permissions are listed in the required order |
| FacebookPermissions.ValidateFacebookPermissions | src/utils/facebook-permissions.ts:4-31 | a failed fetch or missing data is a refusal; otherwise the check passes exactly when every required permission is granted |
| FacebookPermissions.NothingRequiredPasses | src/utils/facebook-permissions.ts:4-31 | with nothing required, any fetched permission list passes |
| FacebookPermissions.MoreGrantsKeepPassing | src/utils/facebook-permissions.ts:17-19 | granting more never adds a missing permission |
| PagesRoute.SessionId | src/app/api/facebook/pages/route.ts:71-74 | the reported session id is the last eight characters of the token (all of a shorter one) |
| PagesRoute.FailureResponse | src/app/api/facebook/pages/route.ts:76-99 | code 190 gives 401; code 200 or an `OAuthException` gives 403; anything else gives 500 with the message or "Unknown error" |
| PagesRoute.FirstFailure | src/app/api/facebook/pages/route.ts:30-57 | no failure exactly when both reads succeed with page data; otherwise the user read's failure, then the accounts read's, then the missing-data error |
| PagesRoute.Get | src/app/api/facebook/pages/route.ts:14-100 | no token means 401 and no Graph call; otherwise two calls are made; 200 exactly when both reads succeed with page data, returning the user and the pages, with nothing reported; any other answer is the mapping of the first failure, whose raw error is reported with the session id |
| PagesRoute.ExpiredTokenBeatsOAuthException | src/app/api/facebook/pages/route.ts:78-92 | an expired token is answered as a session expiry even when its type is `OAuthException` |
| PagesRoute.OtherFailuresAreServerErrors | src/app/api/facebook/pages/route.ts:94-99 | a failure that is neither an expired token nor a permission error is a 500 |
| PagesRoute.ReportedSessionIdSurvivesSanitising | src/app/api/facebook/pages/route.ts:70-74 | the reporter keeps the session id in the stored context, because `sessionId` is not a sensitive key |
| LeadsRoute.LeadsUrlCarriesToken | src/app/api/facebook/leads/route.ts:26-27 | the leads URL carries the page token as its `access_token` parameter |
| LeadsRoute.PageResult | src/app/api/facebook/leads/route.ts:22-58 | a page's result names the page; a thrown fetch or a vendor error gives that error and no leads; otherwise it gives the leads (or none) |
| LeadsRoute.AllPageResults | src/app/api/facebook/leads/route.ts:22-60 | one result per requested page, each from that page's own request |
| LeadsRoute.Post | src/app/api/facebook/leads/route.ts:6-69 | 401 without a token; 400 for non-array ids or tokens, or for lengths that differ; 500 for an unreadable body; otherwise all page results |
| LeadsRoute.PagesAreIndependent | src/app/api/facebook/leads/route.ts:22-60 | a page's result depends only on its own request's response |
| LeadsRoute.ResultsFollowRequestOrder | src/app/api/facebook/leads/route.ts:22-60 | results are concatenated in the order the pages were requested |
| CacheStore.ResolveCacheConfig | src/utils/cache.ts:15-21 | the defaults are 5 minutes and 100 entries, and each given option wins |
| CacheStore.RemoveKeyFacts | src/utils/cache.ts:65-67 | removing a key from the insertion order leaves every other key, keeps keys distinct, and changes nothing for an absent key |
| CacheStore.DeleteKey | src/utils/cache.ts:65-67 | `delete` removes the key's entry and keeps the storage well formed |
| CacheStore.Put | src/utils/cache.ts:38-41 | storing a key sets its entry, keeps an existing key's position, and appends a new key last |
| CacheStore.SetSpec | src/utils/cache.ts:29-42 | after `set` the key holds the new data and time, every other remaining entry is unchanged, and every old entry survives except the key itself and the oldest key when it is evicted |
| CacheStore.NewKeyGoesLast | src/utils/cache.ts:29-42 | a new key set without eviction is appended last, and no other entry changes |
| CacheStore.ResetOldestMovesItLast | src/utils/cache.ts:31-41 | at capacity, re-setting the oldest key evicts it and re-inserts it last with the new data |
| CacheStore.SetKeepsSizeBound | src/utils/cache.ts:29-42 | a cache within its size (at least 1) stays within it when the oldest key is not empty |
| CacheStore.SetEvictsOldestFirst | src/utils/cache.ts:31-36 | at capacity, the oldest key is evicted first |
| CacheStore.ResetKeepsPosition | src/utils/cache.ts:38-41 | re-setting a key below capacity keeps its insertion position |
| CacheStore.EmptyOldestKeyIsNeverEvicted | src/utils/cache.ts:33-35 | an empty oldest key is not evicted, so the cache outgrows its size |
| CacheStore.GetSpec | src/utils/cache.ts:44-58 | `get` misses an absent key, deletes an expired entry and misses, and returns a fresh entry's data unchanged |
| CacheStore.GetAgreesWithHas | src/utils/cache.ts:44-63 | `get` hits exactly when `has` holds, an entry exactly `maxAge` old is still fresh, and `get` removes at most the asked key |
| CacheStore.CleanupSpec | src/utils/cache.ts:73-80 | cleanup keeps exactly the fresh entries, unchanged |
| CacheStore.CleanupLeavesOnlyFresh | src/utils/cache.ts:73-80 | after cleanup every key is a hit that `get` leaves in place, and a second cleanup removes nothing |
| CacheStore.CleanupStep | src/utils/cache.ts:75-79 | each loop step deletes the visited key exactly when it is expired |
| CacheStore.Cache.constructor | src/utils/cache.ts:15-27 | the cache starts empty with the resolved configuration |
| CacheStore.Cache.Set | src/utils/cache.ts:29-42 | the new contents are `SetSpec` of the old |
| CacheStore.Cache.Get | src/utils/cache.ts:44-58 | the value and the new contents are `GetSpec` of the old |
| CacheStore.Cache.Has | src/utils/cache.ts:60-63 | true exactly when the key is present and not older than `maxAge` |
| CacheStore.Cache.Delete | src/utils/cache.ts:65-67 | the new contents are `DeleteKey` of the old |
| CacheStore.Cache.Clear | src/utils/cache.ts:69-71 | the cache becomes empty |
| CacheStore.Cache.Cleanup | src/utils/cache.ts:73-80 | the loop leaves the contents equal to `CleanupSpec` of the old |
| RateLimit.ConfigFor | src/middleware/rateLimit.ts:47-63 | a configured route gets its limits, and any other path the default; every interval is one minute |
| RateLimit.ParamsOf | src/middleware/rateLimit.ts:17-23 | the capacity is `maxBurst` when it is set and non-zero, else the per-interval rate |
| RateLimit.ConfiguredCapacities | src/middleware/rateLimit.ts:47-63 | the leads route holds 5 tokens, the pages route 3 and any other path 10 |
| RateLimit.InitialState | src/middleware/rateLimit.ts:17-23 | a new bucket is full |
| RateLimit.Refill | src/middleware/rateLimit.ts:25-31 | a refill adds the elapsed share of the rate, capped at the capacity, never exceeds old tokens plus that share, and restamps the bucket |
| RateLimit.TryConsume | src/middleware/rateLimit.ts:33-40 | a request is allowed exactly when the refilled bucket holds enough tokens, which are then taken |
| RateLimit.TokensStayNonNegative | src/middleware/rateLimit.ts:25-40 | tokens never go negative |
| RateLimit.BurstAllowance | src/middleware/rateLimit.ts:33-40 | a burst at one instant is allowed exactly as many requests as the bucket holds tokens |
| RateLimit.LeadsBurstIsFive | src/middleware/rateLimit.ts:47-63 | six simultaneous leads requests from a new client let five through |
| RateLimit.TokenBucket.constructor | src/middleware/rateLimit.ts:17-23 | the bucket starts full, stamped with the current time |
| RateLimit.TokenBucket.RefillAt | src/middleware/rateLimit.ts:25-31 | the new state is `Refill` of the old |
| RateLimit.TokenBucket.TryConsumeAt | src/middleware/rateLimit.ts:33-40 | the decision and the new state are `TryConsume` of the old |
| RateLimit.ClientIp | src/middleware/rateLimit.ts:85 | the forwarded address, or "anonymous" when it is absent or empty |
| RateLimit.RateLimiterRegistry.GetRateLimiter | src/middleware/rateLimit.ts:65-72 | returns the bucket for the client and path, creating a full one for that path's limits only when none exists |
| RateLimit.RateLimiterRegistry.RateLimiter | src/middleware/rateLimit.ts:65-96 | answers 429 exactly when the client's bucket for the path refuses one token, and the bucket takes the consumed state; the key set gains only that key, a new bucket has the path's limits, every other key keeps its bucket and state, and distinct keys keep distinct buckets |
| RateLimit.RateLimiterRegistry.Cleanup | src/middleware/rateLimit.ts:75-82 | drops exactly the buckets idle for more than an hour |
| MetricsRoute.PostSpec | src/app/api/metrics/route.ts:22-56 | 500 for an unreadable body; 400 for a payload missing a truthy field; otherwise 200 and the entry appended with the store trimmed to 1000 |
| MetricsRoute.PostKeepsNewest | src/app/api/metrics/route.ts:35-40 | the stored entry is the newest, the store stays within 1000, and only the oldest entries are dropped |
| MetricsRoute.SortIsNewestFirst | src/app/api/metrics/route.ts:77 | the sort orders by descending timestamp and is a permutation |
| MetricsRoute.SortIsStable | src/app/api/metrics/route.ts:77 | entries with equal timestamps keep their arrival order |
| MetricsRoute.ForComponent | src/app/api/metrics/route.ts:71-74 | the filter keeps exactly the component's entries |
| MetricsRoute.ForComponentCounts | src/app/api/metrics/route.ts:71-74 | each matching entry is kept as often as it occurs, and no other entry is kept |
| MetricsRoute.ForComponentKeepsOrder | src/app/api/metrics/route.ts:71-74 | the filter distributes over concatenation, so kept entries stay in store order |
| MetricsRoute.ParseInt | src/app/api/metrics/route.ts:69 | the empty string parses to NaN, and a negative result needs a leading minus sign |
| MetricsRoute.ParseIntOfNumber | src/app/api/metrics/route.ts:69 | `parseInt` reads a rendered number back as itself |
| MetricsRoute.SliceEnd | src/app/api/metrics/route.ts:78 | `slice(0, limit)` stops at the limit capped by the length; NaN gives nothing, and a negative limit counts from the end |
| MetricsRoute.GetSpec | src/app/api/metrics/route.ts:58-85 | outside development the answer is 403 with the store untouched; in development it is a list |
| MetricsRoute.GetListsNewestMatches | src/app/api/metrics/route.ts:71-79 | the list is drawn from the matches, as long as the limit allows, and every match left out is no newer than any listed entry |
| MetricsRoute.PrefixHoldsNewest | src/app/api/metrics/route.ts:77-78 | a prefix of a newest-first sequence is at least as new as everything cut off |
| MetricsRoute.GetIsNewestFirst | src/app/api/metrics/route.ts:77-84 | the list is newest first, and `total` counts the matches before the cut |
| MetricsRoute.GetFiltersByComponent | src/app/api/metrics/route.ts:71-74 | with a component only its entries are listed, and the store is untouched |
| MetricsRoute.GetWithoutFilterSortsTheStore | src/app/api/metrics/route.ts:71-77 | without a component the sort reorders the store itself, stably and newest first, keeping its entries |
| MetricsRoute.GetRespectsLimit | src/app/api/metrics/route.ts:69-79 | no more entries than a non-negative `limit` come back |
| MetricsRoute.MetricsStore.constructor | src/app/api/metrics/route.ts:19 | the store starts empty |
| MetricsRoute.MetricsStore.Post | src/app/api/metrics/route.ts:22-56 | the status and the new store are `PostSpec` of the old |
| MetricsRoute.MetricsStore.Get | src/app/api/metrics/route.ts:58-85 | the answer and the new store are `GetSpec` of the old |
| Pagination.TotalPages | src/hooks/usePagination.ts:12 | the page count is at most the item count, and 0 exactly when there are no items |
| Pagination.TotalPagesIsCeiling | src/hooks/usePagination.ts:12 | the page count is the least number of pages that hold every item, and it is 0 exactly for no items |
| Pagination.PageNumbers | src/hooks/usePagination.ts:14-28 | the page numbers ascend strictly within `[1, totalPages]`; there are at most `maxPages` of them, exactly `maxPages` when there are that many pages, and the current page is among them |
| Pagination.WindowContainsCurrent | src/hooks/usePagination.ts:16-21 | the window always contains an existing current page |
| Pagination.PageItems | src/hooks/usePagination.ts:30-34 | a page's item range holds exactly `pageSize` items |
| Pagination.LastPageHoldsLastItem | src/hooks/usePagination.ts:30-34 | the last page's range contains the last item |
| Pagination.NextPageHasItems | src/hooks/usePagination.ts:42 | there is a next page exactly when the next range starts before the last item |
| Pagination.PrevPageHasItems | src/hooks/usePagination.ts:43 | there is a previous page exactly when items precede the current range |
| KeyboardNavigation.Settle | src/hooks/useKeyboardNavigation.ts:72-79 | wrapping or clamping lands on an element and leaves an index already in range unchanged |
| KeyboardNavigation.KeyboardNavigator.constructor | src/hooks/useKeyboardNavigation.ts:16 | the ref starts at -1 |
| KeyboardNavigation.KeyboardNavigator.HandleKeyDown | src/hooks/useKeyboardNavigation.ts:24-86 | the effect of a key press and the new index are `Navigate` of the old index |
| KeyboardNavigation.KeyboardNavigator.ResetNavigation | src/hooks/useKeyboardNavigation.ts:90-92 | the index returns to -1 |
| KeyboardNavigation.EmptyListIgnoresKeys | src/hooks/useKeyboardNavigation.ts:25-26 | with no elements, no key does anything |
| KeyboardNavigation.CrossArrowsAreIgnored | src/hooks/useKeyboardNavigation.ts:28-52 | arrows across the orientation are ignored and the event is left alone |
| KeyboardNavigation.NavigationLandsOnAnElement | src/hooks/useKeyboardNavigation.ts:72-85 | a navigation key prevents the default and lands on an element, which is focused exactly when the index moved |
| KeyboardNavigation.HomeAndEnd | src/hooks/useKeyboardNavigation.ts:53-60 | Home goes to the first element and End to the last |
| KeyboardNavigation.WrapOrClampAtTheEnds | src/hooks/useKeyboardNavigation.ts:72-79 | past either end the index wraps when wrapping is on and stays put otherwise |
| KeyboardNavigation.ArrowsStepByOne | src/hooks/useKeyboardNavigation.ts:28-52 | inside the list, the arrows move by exactly one element |
| KeyboardNavigation.SelectKeysKeepTheIndex | src/hooks/useKeyboardNavigation.ts:61-67 | Enter and space keep the index and select the current element exactly when one is current and a handler exists |
| KeyboardShortcuts.HandleKeyDown | src/hooks/useKeyboardShortcuts.ts:13-38 | nothing fires in a form field; otherwise the first matching shortcut fires, and none fires only when none matches |
| KeyboardShortcuts.MatchIgnoresKeyCase | src/hooks/useKeyboardShortcuts.ts:26 | matching ignores the pressed key's case |
| KeyboardShortcuts.AbsentFlagIsFalse | src/hooks/useKeyboardShortcuts.ts:27-29 | an absent modifier matches like one set to false |
| KeyboardShortcuts.ShortcutTextShape | src/hooks/useKeyboardShortcuts.ts:55-62 | a label is the set modifiers in the order Ctrl, Alt, Shift, each followed by " + ", then the upper-cased key |
| KeyboardShortcuts.PlainKeyLabel | src/hooks/useKeyboardShortcuts.ts:55-62 | a shortcut without modifiers is labelled by its upper-cased key |
| KeyboardShortcuts.GetShortcuts | src/hooks/useKeyboardShortcuts.ts:48-64 | one entry per shortcut, in order, with its fields and label |
| PageSelector.ToggleSet | src/components/PageSelector.tsx:16-23 | a toggle flips the page's membership and no other |
| PageSelector.ToggleTwiceRestores | src/components/PageSelector.tsx:16-23 | toggling twice restores the selection |
| PageSelector.ToggleChangesCountByOne | src/components/PageSelector.tsx:16-23 | each toggle changes the selected count by one |
| PageSelector.SelectedPages | src/components/PageSelector.tsx:24 | the pages passed on are exactly the selected ones from the list |
| PageSelector.SelectedPagesKeepOrder | src/components/PageSelector.tsx:24 | the selected pages keep the list's order |
| PageSelector.AllSelectedIsEverything | src/components/PageSelector.tsx:24 | with every page selected, the whole list is passed on |
| PageSelector.PageSelector.constructor | src/components/PageSelector.tsx:14 | the selection starts empty |
| PageSelector.PageSelector.HandlePageToggle | src/components/PageSelector.tsx:16-25 | the selection is toggled and the selected pages of the new selection are passed on |
| PageSelector.PageSelector.SelectedCount | src/components/PageSelector.tsx:40 | the count is zero exactly when nothing is selected |
| JsErrors.Wrap | src/utils/retry.ts:93 | an `Error` is kept; any other value becomes an `Error` of its string form |
| Common.KeepNewestAbsorbs | src/utils/error-reporting.ts:240-242 | trimming to the newest `n` before appending changes nothing about the newest `n` after appending |

## Left out

- Stack traces, `JSON.stringify` of the report batch and of request bodies, and `console` output are not modelled. A serialised body is a string input.
- Timers (`setInterval` for flushing, cache cleanup and bucket cleanup), window event listeners and `fetch` are left out. Their results are inputs, and the periodic calls are the methods themselves.
- Vendor codes are integers. A code sent as a string or a float is not modelled.
- Times and delays are `real` rather than IEEE doubles.
- `Promise.all` in the pages route is modelled sequentially. When both Graph reads fail, the user read's failure is the one answered.
- The pages route's Graph reads are inputs. The helper it calls is not part of the API client, so the route takes its results as given.
- FacebookPermissions.ValidateFacebookPermissions: the `fetchFromGraph` call it makes is not part of the API client, so the fetched permission list (or its failure) is an input.
- LeadsRoute.AllPageResults: each page's fetch outcome is a function of its URL, so two requested pages with the same id and token get the same outcome.
- Case mapping in `ToLower`/`ToUpper` is ASCII only.
- `ParseInt` does not model `parseInt`'s leading whitespace, hexadecimal prefixes or radix argument.
- `RateLimit.TokenBucket.constructor` requires an interval above zero. Every configured interval is one minute.
- `RateLimit.ConfigFor` does not model lookups that hit an object prototype key such as `constructor`.
- `ErrorReporting.ErrorReporter.CaptureError` does not model the context argument: `captureError` builds its report without it.
- `ErrorReporting.ApiErrorContext` records an `originalError` that is not a string as an opaque object value.
- The texts of the `TypeError`s raised for a non-JSON body are approximate.
- `Pagination.TotalPages` requires a positive page size; with a zero page size the source divides by zero.
- `usePerformanceMonitoring`, the DOM element objects, focus handling, the `onSelect` callback's element, and `PageSelector`'s rendering are not part of this model.
- `Retry.RetryWithBackoff` does not model an `onRetry` callback that throws: in the source that error becomes the last error and goes to the retry predicate, while here a notice has no effect on the run.
- `ErrorReporting.ErrorReporter.Flush` does not model reports queued by other callers while the send is awaited.
