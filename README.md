# Shopify MCP server utilities, modelled in Dafny

This project models the behavioural core of a Shopify MCP (Model Context Protocol) server written
in TypeScript. It covers five small pieces and proves what callers can rely on from each:

- **Error taxonomy and classifiers** (`ShopifyErrors.dfy`):
  - the `CustomError` constructor and how it composes the stored code from a class code and an optional custom code;
  - the `ShopifyClientErrorBase` class and its seven subclasses, each with a fixed message and code;
  - the three classifiers: HTTP status, GraphQL status, and GraphQL user-error messages.

  All of these are pure functions on a `CustomError` value.
- **Retry with exponential backoff** (`Retry.dfy`):
  - the merge of caller options over the defaults;
  - the retryability test against the default patterns.

  `withRetry` is a method with the source's loop. It is proved against a recursive specification `Run` of the whole run: what it returns, how often it invokes the operation, and which waits it makes. The operation is a function from attempt number to outcome. The waits are recorded in a ghost sequence instead of being slept.
- **TTL cache** (`Cache.dfy`): a class with the source's map field. Its methods are `Set`, `Get` (with lazy expiry), `GetOrSet`, `Delete`, `Clear` and `Cleanup`, the last with its loop over the entries. The clock is a parameter.
- **Error envelopes** (`ErrorHandler.dfy`): `handleError` assembles its message by conditional concatenation; `formatSuccess` builds the success envelope.
- **Display formatters** (`Formatters.dfy`):
  - `formatProduct`, `formatVariant` and `formatOrder` are template literals, each written as the list of its parts;
  - their 'N/A' and 'Guest checkout' fallbacks;
  - the ordered joins over variants and line items.

Shared helpers:

- `Text.dfy` holds substring search (`String.prototype.includes`), ASCII lower-casing, decimal rendering and `Array.prototype.join`.
- `JsValue.dfy` holds a JavaScript value and its truthiness.
- `Optional.dfy` holds an option type.

Modelling choices:

- **Case-insensitive patterns.** The default `retryableErrors` contain case-insensitive regular expressions for fixed ASCII phrases. Without the `u` flag, JavaScript's `/i` folds ASCII letters only onto ASCII letters. So `/timeout/i.test(m)` is modelled as a substring search for "timeout" in the ASCII lower-cased `m`.
- **Falsy values.** `options.ttl || defaultTTL`, `payload.customCode ? … : …`, `error.code`, `error.contextData`, `error.innerError` and `s || 'N/A'` all test JavaScript truthiness. So a ttl of 0 and an empty custom code, code or SKU count as absent.
- **Expiry.** A cache entry expires only once `now > expiresAt`; at `now == expiresAt` it is still returned.
- **Stored null.** `getOrSet` treats a stored `null` as a miss (`cached !== null`) and calls the getter again.
- **Different status tables.** The HTTP and GraphQL classifiers use different tables. The GraphQL one reports 401 and 404 as general errors, and no classifier ever produces the request error.
- **Ignored payload message.** The constructor ignores `payload.message`.

## Model

| member | source | states |
|---|---|---|
| ShopifyErrors.ComposeCodeSplits | src/ShopifyClient/ShopifyClientPort.ts:443-449 | the stored code starts with the class code; it equals the class code exactly when there is no non-empty custom code; otherwise a '.' follows, and after it the custom code can be read back |
| ShopifyErrors.NewCustomError | src/ShopifyClient/ShopifyClientPort.ts:438-450 | the constructor keeps the message, composes the code, and stores inner error and context data unchanged |
| ShopifyErrors.NewClientBaseError | src/ShopifyClient/ShopifyClientPort.ts:452-458 | the base class defaults its code to "SHOPIFY_CLIENT_ERROR" and otherwise behaves as `CustomError` |
| ShopifyErrors.NewShopifyError | src/ShopifyClient/ShopifyClientPort.ts:460-514 | each subclass passes its own fixed message and class code |
| ShopifyErrors.KindOfCodeRecovers | src/ShopifyClient/ShopifyClientPort.ts:443-514 | whatever custom code is supplied, the stored code identifies the subclass that raised it |
| ShopifyErrors.KindOfCodeIdentifies | src/ShopifyClient/ShopifyClientPort.ts:460-514 | a code that carries a subclass's class code, bare or followed by '.', is attributed to that subclass |
| ShopifyErrors.CodesDisjoint | src/ShopifyClient/ShopifyClientPort.ts:461-509 | no code carries two different class codes: no class code is another's, or another's followed by a dot |
| ShopifyErrors.GetHttpShopifyError | src/ShopifyClient/ShopifyClientPort.ts:516-533 | authorization iff status 401 or 403; input iff 400 or 404; payment iff 402; general iff any other status; message and code are the class's; inner error and context are passed through unchanged |
| ShopifyErrors.GetGraphqlShopifyError | src/ShopifyClient/ShopifyClientPort.ts:535-550 | authorization iff 403; input iff 400; payment iff 402; general iff any other status; the error array is the inner error; context unchanged |
| ShopifyErrors.HttpAndGraphqlDisagreeOnlyOn401And404 | src/ShopifyClient/ShopifyClientPort.ts:521-549 | the two status tables give different classes exactly for 401 and 404, where the GraphQL one says general |
| ShopifyErrors.SomeMessageIncludes | src/ShopifyClient/ShopifyClientPort.ts:556 | the left-to-right `some` scan is true iff some entry has a string message containing the phrase |
| ShopifyErrors.GetGraphqlShopifyUserError | src/ShopifyClient/ShopifyClientPort.ts:552-563 | variant-not-found iff some message contains "variant not found"; not-available-for-sale iff none does and some contains "not available for sale"; general iff neither phrase occurs in any message; inner error is the array, context unchanged |
| ShopifyErrors.ClassifiersNeverRequest | src/ShopifyClient/ShopifyClientPort.ts:516-563 | none of the three classifiers yields a request error, a bare base-class error or a plain custom error |
| ShopifyErrors.VariantNotFoundTakesPrecedence | src/ShopifyClient/ShopifyClientPort.ts:556-560 | a message with both phrases is classified as a missing variant |
| Text.ContainsIff | src/utils/retry.ts:50 | `includes` as a left-to-right scan finds the phrase iff it occurs at some index |
| Retry.ShouldRetryIff | src/utils/retry.ts:47-51 | `retryableErrors.some(...)` holds iff some pattern of the list matches the message |
| Retry.Merge | src/utils/retry.ts:13-36 | each supplied option wins; each absent one is 3, 1000, 10000, 2 or the default pattern list |
| Retry.Min | src/utils/retry.ts:67 | `Math.min` is a lower bound of both arguments and equals one of them |
| Retry.WithRetry | src/utils/retry.ts:32-72 | the outcome, the number of invocations and the waits are those of the specified run under the merged options |
| Retry.RetryLoop | src/utils/retry.ts:38-69 | the loop, with `delay` and `attempt` updated in place, produces exactly the specified run |
| Retry.RunBounds | src/utils/retry.ts:40 | the operation is invoked between 1 and `maxRetries` times, with one wait fewer than invocations |
| Retry.RunSettlesWithLastOutcome | src/utils/retry.ts:41-55 | the run settles with its last invocation's own value or error, unwrapped; every earlier invocation threw a retryable error; the last one succeeded, threw a non-retryable error, or was attempt `maxRetries` |
| Retry.RunStopsAt | src/utils/retry.ts:40-55 | conversely, retryable failures before attempt `last` and a final outcome at `last` make the run stop at `last` with that outcome |
| Retry.RunSleepsFollowBackoff | src/utils/retry.ts:64-67 | the waits continue the backoff sequence from the current attempt |
| Retry.RetriedSleeps | src/utils/retry.ts:38-67 | the i-th wait is `Delay(i)`: `initialDelay` first, then each one the previous times the factor, capped at `maxDelay` |
| Retry.DelayCapped | src/utils/retry.ts:67 | after the first update no wait exceeds `maxDelay` |
| Retry.DelayNondecreasing | src/utils/retry.ts:38-67 | with factor >= 1 and 0 <= initialDelay <= maxDelay the waits never shrink and stay within `maxDelay` |
| Retry.FailThenSucceed | src/utils/retry.ts:40-42 | a success on attempt k after retryable failures is returned, and the operation was invoked exactly k times |
| Retry.NonRetryableFailsFast | src/utils/retry.ts:47-55 | a non-retryable failure on the first attempt is rethrown unchanged after one invocation and no wait |
| Retry.DefaultRetryable | src/utils/retry.ts:18-26 | the default patterns accept a message iff it contains "rate limit", "timeout" or "network" in any ASCII case, a '5' followed by two digits, or "ECONNRESET", "ETIMEDOUT" or "ECONNREFUSED" |
| Retry.IgnoreCaseFoldsPhrase | src/utils/retry.ts:47-49 | a case-insensitive pattern ignores the case of its own phrase too: `/Timeout/i` accepts "timeout" |
| Retry.DefaultRetryExamples | src/utils/retry.ts:20-22 | "Request Timeout" (ignoring case) and "HTTP 503" are retryable by default |
| Retry.DefaultRejectsBadInput | src/utils/retry.ts:18-26 | "Bad input" matches no default pattern |
| Retry.DefaultScheduleForPersistentFailure | src/utils/retry.ts:13-67 | with the defaults and an always-retryable failure: three invocations, waits of 1000 then 2000, and the third error rethrown |
| TtlCache.EffectiveTtl | src/utils/cache.ts:16-19 | an absent or zero ttl becomes 300000 ms; any other ttl is kept |
| TtlCache.Live | src/utils/cache.ts:66-73 | the entries kept at `now` are exactly those with `now <= expiresAt`, with their data unchanged |
| TtlCache.LiveMonotone | src/utils/cache.ts:66-73 | sweeping again at the same time removes nothing, and a later sweep keeps no more than an earlier one |
| TtlCache.Cache.constructor | src/utils/cache.ts:15 | a new cache is empty |
| TtlCache.Cache.Set | src/utils/cache.ts:18-24 | the entry for the key becomes (value, now + effective ttl), overwriting any old one; every other entry is unchanged |
| TtlCache.Cache.Get | src/utils/cache.ts:26-40 | absent key: null, map unchanged; stale entry (now > expiry): null and only that key deleted; fresh entry: its data, map unchanged |
| TtlCache.Cache.GetOrSet | src/utils/cache.ts:42-55 | a hit (a fresh, non-null value) is returned without calling the getter or changing the map; otherwise the getter is called once: a resolved value is stored with the set-time expiry and returned, and a rejection is passed on with nothing stored and only a stale entry for the key dropped |
| TtlCache.Cache.Delete | src/utils/cache.ts:57-59 | only the key is removed |
| TtlCache.Cache.Clear | src/utils/cache.ts:61-63 | the map becomes empty |
| TtlCache.Cache.Cleanup | src/utils/cache.ts:66-73 | after the sweep the map is exactly the live part of the old map |
| TtlCache.SetThenGet | src/utils/cache.ts:18-40 | a value set at t is read back at any time up to t + ttl, inclusive, and is null afterwards |
| TtlCache.RejectionStoresNothing | src/utils/cache.ts:34-52 | after a rejecting getter on an expired key the rejection is returned and the next lookup misses |
| TtlCache.GetOrSetTwice | src/utils/cache.ts:42-55 | two calls within the ttl invoke the getter once and both return its value |
| TtlCache.StoredNullIsAMiss | src/utils/cache.ts:47-52 | a stored null is not a hit: the getter runs and its value is returned |
| TtlCache.CleanupThenGet | src/utils/cache.ts:26-73 | after a cleanup, a lookup at the same time sees exactly the live entries |
| ErrorHandler.HandleError | src/utils/errorHandler.ts:21-53 | always an error envelope with exactly one text item, whose text is the assembled message and starts with the default message |
| ErrorHandler.FormatSuccess | src/utils/errorHandler.ts:60-66 | one text item holding the serialised data |
| ErrorHandler.NonCustomErrorText | src/utils/errorHandler.ts:25-44 | a non-Error value yields exactly the default message; a plain Error yields "default: message" |
| ErrorHandler.CustomErrorHead | src/utils/errorHandler.ts:27-41 | for a `CustomError` the text starts with "default: message"; with falsy context and inner error, only the code section follows |
| ErrorHandler.CustomErrorCodeSection | src/utils/errorHandler.ts:31-33 | the text continues with " (Code: " right after "default: message" iff the code is non-empty |
| ErrorHandler.CodeSectionMarker | src/utils/errorHandler.ts:31-41 | the code section is recognisable because the sections after it start with a line break |
| ErrorHandler.ShopifyErrorRendering | src/utils/errorHandler.ts:27-41 | an error built by a subclass renders as class message, " (Code: class code)", then the context and inner-error sections |
| ErrorHandler.ClassifiedUserErrorRendering | src/utils/errorHandler.ts:39-41 | a classified user error always shows the error array in an "Inner Error" section, since an array is truthy |
| Formatters.OrNA | src/utils/formatters.ts:40 | the 'N/A' fallback: 'N/A' for the empty string, the string itself otherwise |
| Formatters.CustomerText | src/utils/formatters.ts:59 | 'Guest checkout' without a customer, "email (id)" with one |
| Formatters.ProductTitle | src/utils/formatters.ts:13-14 | the product title appears verbatim after "\n  Product: " |
| Formatters.ProductVariantBlock | src/utils/formatters.ts:17-26 | variant i's block appears inside the variants list at its place in input order, after blocks 0..i-1 and their ", " separators |
| Formatters.ProductVariantSku | src/utils/formatters.ts:22 | inside its block the SKU is printed verbatim, with no 'N/A' fallback |
| Formatters.VariantLayout | src/utils/formatters.ts:35-44 | the variant title appears verbatim; the sku line shows 'N/A' for an empty SKU and the SKU otherwise |
| Formatters.OrderNameAndEmail | src/utils/formatters.ts:53-57 | the order name appears verbatim; the email line shows 'N/A' for an empty email |
| Formatters.OrderCustomer | src/utils/formatters.ts:59 | the customer line shows 'Guest checkout' or "email (id)" |
| Formatters.OrderLineItem | src/utils/formatters.ts:60-62 | there is one segment per line item, in input order and with nothing between segments |
| Text.JoinItemAt | src/utils/formatters.ts:26 | in `join`, item i occurs right after items 0..i-1 and their separators |
| Text.ParseNatToString | src/utils/formatters.ts:61 | the decimal rendering of a quantity reads back as the same number |

## Left out

- **Not part of this model.** The GraphQL client, the tool registrations, the server start-up and the configuration (`src/ShopifyClient/ShopifyClient.ts`, `src/tools/*.ts`, `src/index.ts`, `src/config/index.ts`) are network and protocol glue, and are not part of this model.
- **Time and logging.** `Date.now()`, `setTimeout` and `console.error` become a clock parameter and a ghost list of waits, or are dropped. Logging has no effect on results.
- **Serialisation.** `JSON.stringify(v, null, 2)` is the function parameter `stringify`; its output format is not modelled.
- **Regular expressions.** General regular-expression semantics are not modelled. Only the three shapes the default patterns use are: a case-insensitive ASCII phrase, a plain substring, and `/5\d\d/`.
- **Numbers.** Delays are `real`, so the floating-point rounding, NaN and Infinity of JavaScript numbers are not modelled. Neither is a ttl that is NaN.
- Retry.WithRetry: `maxRetries` is an integer here. The source accepts any number. With a non-integer such as 2.5 the test `attempt === maxRetries` never holds, so after the last whole attempt the source waits once more, leaves the loop and throws `lastError`; that final wait is not modelled. With `Infinity` the source retries a retryable failure forever.
- Retry.WithRetry: requires `maxRetries >= 1`. With `maxRetries <= 0` the source never invokes the operation and throws the undefined `lastError`. An option given explicitly as `undefined` overrides the default in the source's spread merge; the model treats it as absent.
- Retry.WithRetry: a thrown value is modelled as an error with a string `message`. A thrown value without one (the `.message` read gives `undefined`, and `includes` then throws) is not modelled.
- TtlCache.Cache.GetOrSet: the getter's promise is a function call that returns how the promise settles, resolved or rejected. Concurrent callers interleaving across the `await` are not modelled. The store uses a second clock reading `later`, taken after the getter settles.
- TtlCache.Cache.Cleanup: deleting from a JavaScript `Map` during iteration visits each remaining key once. The model iterates over a set of pending keys in no fixed order, which gives the same result because each step only looks at its own key.
- ShopifyErrors.UserErrorMessage: only a string `message` property is a message, as the GraphQL `userErrors` type declares. Other shapes are treated as not matching, which differs from JavaScript:
  - an array `message` has `Array.prototype.includes`, so it matches when one of its elements equals the phrase;
  - a number, boolean or object `message` has no `includes`, so the call throws;
  - a `null` entry in the array makes the property access throw.
- Retry.Matches: a case-insensitive phrase must be ASCII. For a non-ASCII phrase, `/i` without the `u` flag also folds non-ASCII letters, which is not modelled.
- ShopifyErrors.NewCustomError: the `name` property set from the constructor name, and the ignored `payload.message`, are not modelled. The subclass is the `cls` field.
- Formatters.VariantLayout: the SKU is a string, so a missing (`undefined` or `null`) SKU is not modelled; it would print 'N/A' in `formatVariant` and "null" or "undefined" in `formatProduct`. Likewise `order.email` is a string.
- Formatters.OrderLineItem: the quantity is printed as a JavaScript integer. Prices and amounts are kept as the strings the API returns.
