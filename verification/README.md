# dp-doc-bot checker core in Dafny

A model of the checker core of the dp-doc-bot Telegram bot. The bot takes a
Ukrainian document number (an ID card or a legacy paper passport) and looks up
its production status on the state document service's checker page. It then
replies with the status, or with an error explaining why none could be given.

The model covers:

- **Document parsing** (`Parse`, `CheckerHandler`): the length limit in UTF-16
  code units, JavaScript `trim` over its exact white-space set, the card pattern
  `/^\d{9}$/`, and the legacy-passport pattern `/^([А-ЩЬЮЯҐЄІЇ]{2})(\d{6,7})$$/i`.
  The passport letter class is an explicit character set and includes the
  lower-case forms that `/i` admits. It also covers rendering a reference back
  to text, and the older message parser of the checker handler.
- **Form encoding** (`BrowserForm`): the eleven-field POST form built from the
  check parameters.
- **TTL cache middleware** (`Cache`): a map from the request's key to the last
  status and its creation time, with an explicit clock. It covers query (hit or
  forward), result insert-and-forward, error pass-through, lazy eviction, the
  periodic sweep and dispose.
- **Browser status provider** (`Provider`): the idle-page pool, the vacancy
  counter and the table of armed request timeouts. Each event is one atomic
  step: query, result, error, timer firing or dispose. Browser calls are
  oracles: page creation yields a fresh handle or fails, and a dispatch goes
  out or fails.
- **Legacy browser provider** (`LegacyBrowser`): the older variant. It has no
  duplicate-request check, and its `requestPage` yields no page on the
  creation path.
- **Reply texts** (`Format`): the text for each error kind, the status header
  per status code, the day-count phrase and the layout of a status reply.
- **Configuration formats** (`ConfigFormats`): the `required-string`,
  `boolean`, `cmd` and `log-level` formats registered with the configuration
  loader. Raw values are JavaScript values with their truthiness and
  `toString`.
- **Webhook path** (`Webhook`): the webhook path derived from the base URL's
  pieces.
- **Retry** (`Retry`): the bounded retry combinator. Attempt outcomes are a
  function of the attempt index, and sleeps are recorded as effects.

Shared vocabulary lives in `CheckerTypes` (status codes, error kinds, query
errors, check parameters, statuses, document references and handler
deliveries), in `JsString` (JavaScript string semantics) and in `Wrappers`
(`Option`, `Result`, `Outcome`).

Some of the code's behaviour differs from what a reader of its interfaces
would expect. The model follows the code in each case:

- A cache key is the series followed by the number, with no document kind.
  Keys of parsed references still never collide (`Cache.CacheKeyInjectiveOnParsed`),
  but raw parameters can share one (`Cache.CacheKeyOmitsKind`).
- A result that arrives after its timeout fired is still delivered, so the user
  gets both replies (`Provider.LateResultStillDelivered`).
- A failed dispatch leaves the timer armed, so one query can produce two errors
  (`Provider.FailedDispatchThenTimeout`).
- Error kinds carry the numbers 1, 2, 4, 5 and 6; there is no 3.
- `QueryError.from` is called but defined nowhere. On a query error it is
  modelled as the identity.
- The legacy-passport pattern ends in `$$`, which is just an end anchor.
- `DocumentType` and `DocumentRef` are imported by the parser but not defined
  in the types file. They are defined here as the parser uses them.

## Model

| member | source | states |
|---|---|---|
| JsString.Utf16Length | src/utils/parse.ts:27 | `text.length` counts UTF-16 code units: between one and two per character, and exactly one per character for text inside the Basic Multilingual Plane |
| JsString.Utf16LengthAppend | src/utils/parse.ts:27 | the length of a concatenation is the sum of the lengths |
| JsString.Trim | src/utils/parse.ts:31 | `trim` never lengthens its input, and its result is empty or starts and ends with a character outside the white-space set |
| JsString.TrimRemovesPadding | src/utils/parse.ts:31 | `trim` keeps an infix of its input and removes only white space on either side of it |
| JsString.TrimPadded | src/utils/parse.ts:31 | trimming white space around a text that neither starts nor ends in white space gives back exactly that text |
| JsString.TrimSolid | src/utils/parse.ts:31 | text that is empty or neither starts nor ends in white space is left unchanged by `trim` |
| JsString.TrimIdempotent | src/utils/parse.ts:31 | trimming twice is trimming once |
| JsString.IntToStringInjective | src/handlers/format.ts:58 | the decimal rendering of integers in a template literal is injective, negatives included |
| JsString.SplitJoin | src/app/config/autoload.ts:52 | splitting on a character and joining the pieces with it gives back the text |
| JsString.SplitCount | src/app/config/autoload.ts:52 | `split` on a character gives one piece more than the character occurs, and no piece contains it |
| CheckerTypes.StatusCodeOf | src/services/checker/types.ts:1-5 | a number is a known status code exactly when it is one of the three enum values, and the code found carries that value |
| CheckerTypes.StatusCodeValues | src/services/checker/types.ts:1-5 | the codes are Shipped 21, InTransit 23 and Ready 24 |
| CheckerTypes.ErrorTypeOf | src/services/checker/types.ts:45-51 | a number is an error kind exactly when it is one of the five enum values |
| CheckerTypes.ErrorTypeValues | src/services/checker/types.ts:45-51 | the kinds are Quota 1, Crawl 2, Http 4, Api 5 and Timeout 6: pairwise distinct, with no kind numbered 3 |
| Parse.ParseDocumentId | src/utils/parse.ts:26-43 | input longer than 32 code units is refused before trimming; every reference returned is well formed |
| Parse.ParseBirthCertId | src/utils/parse.ts:10-12 | the birth-certificate rule never matches any text |
| Parse.MatchRules | src/utils/parse.ts:31-42 | the card rule, then the passport rule, then the birth-certificate stub; whatever matches is well formed (a card has nine digits and no series; a passport has two class letters and six or seven digits) |
| Parse.FormatDocumentRef | src/utils/parse.ts:45-55 | a card renders as its number, a passport as series then number, a birth certificate as series, space, number; a missing series renders as `undefined` |
| Parse.SeriesLettersAreNotDigitsOrSpace | src/utils/parse.ts:6 | no letter of the case-insensitive class is a digit or white space, and every one is a single UTF-16 code unit |
| Parse.FormatShape | src/utils/parse.ts:45-51 | the rendering of a well-formed reference is at most nine code units and has no white space at its ends |
| Parse.MatchSound | src/utils/parse.ts:31-42 | what the rules return is well formed and renders back as the text matched |
| Parse.MatchComplete | src/utils/parse.ts:31-42 | the rendering of every well-formed reference matches the rules as exactly that reference |
| Parse.ParseCharacterization | src/utils/parse.ts:26-55 | the parser returns `r` if and only if the input fits the limit, `r` is well formed, and the trimmed input is `r` rendered |
| Parse.ParsePadded | src/utils/parse.ts:27-42 | white space around a rendered reference is ignored while the limit is respected |
| Parse.FormatParseRoundTrip | src/utils/parse.ts:26-55 | rendering a well-formed reference and parsing the text gives the reference back |
| Parse.ParseFormatRoundTrip | src/utils/parse.ts:26-55 | every reference the parser returns parses to itself after rendering |
| Parse.TooLongRejected | src/utils/parse.ts:27-29 | input with more than 32 characters is refused whatever it holds |
| CheckerHandler.ParseMessage | src/handlers/checker.ts:16-36 | the handler's parser agrees with the document parser on every input: same refusals, same series and number |
| CheckerHandler.ParseMessageCharacterization | src/handlers/checker.ts:16-36 | the handler's parser returns `p` if and only if the trimmed input renders a well-formed reference with parameters `p`, within the limit |
| BrowserForm.BuildFormObject | src/services/checker/browser/types.ts:50-64 | the fixed fields are constant; the selector is the legacy-passport value exactly when the series is truthy; the series field carries a truthy series; exactly one number field carries the number and the other is empty |
| BrowserForm.FormRoundTrip | src/services/checker/browser/types.ts:50-64 | reading the form back gives the parameters, with an empty series read as none |
| Cache.Init | src/services/checker/cache.ts:19-22 | a new cache is empty and its sweep timer is armed |
| Cache.CacheKey | src/services/checker/cache.ts:62-68 | the key begins with the series when it is truthy and is exactly as long as series and number together, or as the number alone; the kind is not part of it, and injectivity on parsed references is `Cache.CacheKeyInjectiveOnParsed` |
| Cache.IsTtlElapsed | src/services/checker/cache.ts:70-73 | as written, an entry elapses only when now ≤ createdAt − ttl, that is when the clock has gone back by the TTL; under the intended rule it elapses once now ≥ createdAt + ttl |
| Cache.CacheKeyInjectiveOnParsed | src/services/checker/cache.ts:62-68 | parsed references with the same key are the same reference |
| Cache.CacheKeyOmitsKind | src/services/checker/cache.ts:62-68 | a passport's parameters and a card's parameters can share a key |
| Cache.GetFromCache | src/services/checker/cache.ts:75-89 | a missing key gives nothing and changes nothing; an elapsed entry is deleted and gives nothing; a live entry gives its value and changes nothing |
| Cache.Query | src/services/checker/cache.ts:24-32 | a query is answered from the cache exactly when the lookup finds a live value, delivering that value under the caller's request id; otherwise it is forwarded unchanged |
| Cache.HandleStatusResult | src/services/checker/cache.ts:48-56 | the status is stored under its request's key, stamped with the current time, the other entries are untouched, and the same status is passed on |
| Cache.HandleStatusError | src/services/checker/cache.ts:58-60 | errors are passed on unchanged and never touch the cache |
| Cache.Sweep | src/services/checker/cache.ts:92-98 | the sweep keeps exactly the entries that have not elapsed, with their values unchanged |
| Cache.SweepTimerFired | src/services/checker/cache.ts:91-104 | only an armed timer fires, since `dispose` cancels it; a sweep keeps exactly the live entries and re-arms the timer |
| Cache.Dispose | src/services/checker/cache.ts:39-46 | dispose cancels the sweep timer, empties the map and disposes the wrapped provider |
| Cache.DisposeIdempotent | src/services/checker/cache.ts:39-46 | disposing twice leaves the same cache state as disposing once, and a disposed cache forwards every query; the second `dispose()` still calls the wrapped provider's `dispose()` again, which the flag does not count |
| Cache.StoredResultIsServed | src/services/checker/cache.ts:24-89 | after a result is stored, a query with the same key is answered from the cache for as long as the entry has not elapsed |
| Cache.AsWrittenNeverElapses | src/services/checker/cache.ts:70-73 | as written, with a positive TTL and a clock that does not run backwards, no entry ever elapses |
| Cache.AsWrittenServesStaleEntry | src/services/checker/cache.ts:70-104 | as written, with the service's four-hour TTL, a status stored at time 0 is still served a year later, and the sweep keeps it |
| Cache.IntendedExpiredEntryForwarded | src/services/checker/cache.ts:70-89 | with the age computed as now minus creation, a query after the TTL goes to the provider and the entry is deleted |
| Cache.IntendedSweepBoundsAge | src/services/checker/cache.ts:91-98 | with the age computed as now minus creation, the sweep keeps exactly the entries younger than the TTL |
| Provider.Create | src/services/checker/browser/provider.ts:38-44 | a new provider has an empty pool, no armed timer, and every page vacant |
| Provider.RequestPage | src/services/checker/browser/provider.ts:116-132 | with no vacancy it throws the quota error and changes nothing; otherwise it pops the pool and hands out the popped page when it is reusable, else the newly created page, or throws the creation's own error; it decrements the counter exactly when it hands out a page |
| Provider.ReturnPage | src/services/checker/browser/provider.ts:134-140 | a page is pushed back and the counter incremented; no page is a no-op |
| Provider.Query | src/services/checker/browser/provider.ts:50-80 | the counter is the same after a query on every path; a duplicate request id gets the duplicate error and nothing changes; with no vacancy it gets the quota error and nothing changes; a query either sends exactly this request's form and reports nothing, or reports exactly one error for this request; a failed page creation reports the creation's error, arms no timer and only pops the pool; with a page in hand the timer is armed and a failed dispatch reports the dispatch's error |
| Provider.TimerFired | src/services/checker/browser/provider.ts:60-67 | a timer of a request no longer armed does nothing; otherwise it reports one timeout error and disarms the request |
| Provider.OnResult | src/services/checker/browser/provider.ts:82-103 | the request is disarmed; the answer is an API error carrying the remote message exactly when the remote error code is positive, and otherwise a status with the remote code, the message, the parsed date (none for an Invalid Date) and the original request |
| Provider.OnError | src/services/checker/browser/provider.ts:105-114 | the request is disarmed, and a page-script failure is reported as a crawl error and a request failure as an HTTP error, with the message kept |
| Provider.Dispose | src/services/checker/browser/provider.ts:211-215 | dispose empties the pool |
| Provider.RunKeepsVacancy | src/services/checker/browser/provider.ts:42-140 | under any sequence of atomic events the vacancy counter never changes, so `0 <= vacantPages <= maxPoolSize` holds forever, and the pool holds at most one idle page more than at the start |
| Provider.DuplicateQueryRefused | src/services/checker/browser/provider.ts:52-55 | a query under an armed request id reports exactly one duplicate error and leaves every table unchanged |
| Provider.DispatchedQueryArmsTimer | src/services/checker/browser/provider.ts:57-79 | a query that gets a page and dispatches arms its timer, puts the page back on the pool, reports nothing and sends its form |
| Provider.FailedDispatchThenTimeout | src/services/checker/browser/provider.ts:60-76 | when the dispatch fails, the failure is reported, and the timer's firing then reports a second error, a timeout, for the same query |
| Provider.LateResultStillDelivered | src/services/checker/browser/provider.ts:60-103 | a result that arrives after the timeout is still delivered to the handler |
| Provider.ReusedPageRestoresPool | src/services/checker/browser/provider.ts:121-126 | when the reuse test holds of the top idle page, that page is handed out again and the query leaves the pool as it found it |
| Provider.SourceNeverReusesPages | src/services/checker/browser/provider.ts:121-131 | with the reuse test as written, the top idle page is always dropped and a new page is used |
| LegacyBrowser.RequestPage | src/services/checker/browser/browser.ts:105-120 | with no vacancy it throws the quota error; otherwise it pops the pool and hands out the popped page when it is reusable, else no page at all after a successful creation, or throws the creation's own error |
| LegacyBrowser.Query | src/services/checker/browser/browser.ts:46-70 | with no vacancy a query gets the quota error and nothing changes; otherwise the counter stays or drops by one; a query either sends exactly this request's form and reports nothing, or reports exactly one error for this request; a failed page creation reports the creation's error, arms no timer and only pops the pool; on the reuse path the timer is armed and a failed dispatch reports the dispatch's error |
| LegacyBrowser.NoDuplicateCheck | src/services/checker/browser/browser.ts:46-59 | in every state, a query under an armed request id gives the same outputs, submissions, pool and counter as if the id had no timer, and the id stays armed |
| LegacyBrowser.CreatePathLosesSlot | src/services/checker/browser/browser.ts:105-125 | on the creation path no page comes back, the dispatch throws a type error, the timer stays armed, and the counter ends one lower |
| LegacyBrowser.ReusePathKeepsSlot | src/services/checker/browser/browser.ts:110-128 | on the reuse path the page is returned, so the pool and the counter are as before |
| LegacyBrowser.RunNeverRefills | src/services/checker/browser/browser.ts:46-128 | from an empty pool, under any events, the pool stays empty and the counter never rises |
| LegacyBrowser.ExhaustedRefusesAll | src/services/checker/browser/browser.ts:105-108 | once the counter is zero every query gets the quota error |
| Format.FormatError | src/handlers/format.ts:22-42 | the reply for each error kind: the API reply quotes the message after a fixed line; the quota and timeout replies are fixed; the HTTP and crawl replies quote the message in a code block between a header and the manual-check suffix |
| Format.FormatErrorIgnoresMessage | src/handlers/format.ts:28-32 | the quota and timeout replies do not depend on the message |
| Format.FormatErrorFirstChar | src/handlers/format.ts:22-42 | each reply starts with its kind's emoji |
| Format.FormatErrorDecodable | src/handlers/format.ts:22-42 | the reply determines the error kind, and for the kinds that quote it, the message |
| Format.InternalErrorTextDecodable | src/handlers/format.ts:41 | the HTTP and crawl frames lose nothing of the message |
| Format.StatusHeader | src/handlers/format.ts:47-60 | codes 21, 23 and 24 get the fixed shipped, in-transit and ready headers; any other code is quoted in the header |
| Format.StatusHeaderInjective | src/handlers/format.ts:47-60 | distinct codes get distinct headers |
| Format.DayPhrase | src/handlers/format.ts:62-80 | 0 is today, 1 is yesterday, 2 to 4 use the few-days form, anything else, negatives included, the many-days form |
| Format.DayPhraseInjective | src/handlers/format.ts:62-80 | distinct day differences get distinct phrases |
| Format.PhraseLength | src/handlers/format.ts:72-79 | a few-days phrase is shorter than every many-days phrase |
| Format.FormatResult | src/handlers/format.ts:44-99 | a status reply starts with the header and the sanitised answer, and ends with the formatted date, the day phrase in parentheses and the disclaimer; for an Invalid Date it ends with "не відомо" and the phrase "NaN днів тому" |
| Format.NanPhraseIsNoDayPhrase | src/handlers/format.ts:62-80 | the Invalid Date phrase differs from the phrase of every day difference |
| ConfigFormats.ToText | src/app/config/autoload.ts:30 | `toString` fails exactly on `undefined` and `null` |
| ConfigFormats.ValidateRequiredString | src/app/config/autoload.ts:13-17 | validation refuses exactly the empty string, with the required-value message |
| ConfigFormats.CoerceRequiredString | src/app/config/autoload.ts:18-23 | coercion turns `null` into `undefined` and keeps everything else |
| ConfigFormats.RequiredStringCoerceThenValidate | src/app/config/autoload.ts:12-24 | coercion neither creates nor hides an empty string, and is idempotent |
| ConfigFormats.FalseTextIsNotTrueText | src/app/config/autoload.ts:30-37 | no trimmed text reads as both false and true |
| ConfigFormats.CoerceBoolean | src/app/config/autoload.ts:29-41 | `undefined` and `null` fail in `toString`; otherwise a value is accepted exactly when its trimmed text is one of the five words, reads as true exactly for `1` and `true`, and is refused with the invalid-value message |
| ConfigFormats.CoerceTrimmedWord | src/app/config/autoload.ts:29-37 | a value whose trimmed text is one of the five words coerces to `true` exactly when that word is `1` or `true` |
| ConfigFormats.CoercePaddedWord | src/app/config/autoload.ts:29-37 | white space around a boolean word does not change what it coerces to |
| ConfigFormats.BooleanTextSolid | src/app/config/autoload.ts:30 | the text of a boolean is `true` or `false`, and trimming leaves it as it is |
| ConfigFormats.BooleanValueRoundTrip | src/app/config/autoload.ts:29-37 | a boolean coerces back to itself |
| ConfigFormats.BooleanTextRoundTrip | src/app/config/autoload.ts:29-37 | `true`/`false` and `1`/`0`, padded with white space, coerce back to the boolean |
| ConfigFormats.CoerceCmd | src/app/config/autoload.ts:47-53 | a falsy value gives no arguments; otherwise there is one argument per piece between spaces, each the trimmed piece |
| ConfigFormats.TrimEachKeepsSolid | src/app/config/autoload.ts:52 | pieces that are empty or carry no white space at their ends come out of `.map(v => v.trim())` unchanged |
| ConfigFormats.CmdArgumentCount | src/app/config/autoload.ts:52 | there is one argument more than spaces in the text |
| ConfigFormats.CmdRoundTrip | src/app/config/autoload.ts:52 | when no piece has white space at its ends, the arguments joined with spaces give back the text |
| ConfigFormats.ValidateLogLevel | src/app/config/autoload.ts:55-60 | validation passes exactly for the strings info, warn, error, debug and trace |
| Webhook.NormalizePathname | src/app/config/config.ts:93-96 | the result ends in a slash: a path already ending in one is kept, any other gets one appended |
| Webhook.NormalizeIdempotent | src/app/config/config.ts:93-96 | normalising twice is normalising once |
| Webhook.GetWebhookPath | src/app/config/config.ts:91-101 | the domain is the host, the original path name is a prefix of the webhook path, and the URL is the origin followed by that path |
| Webhook.WebhookPathShape | src/app/config/config.ts:98-100 | the endpoint comes right after a slash, preceded by the normalised path name, which is the original or the original plus one slash |
| Retry.Run | src/utils/retry.ts:7-27 | at most `n` calls; every call before the last threw; success returns the last call's value; failure means every one of the `n` attempts threw and the last error is rethrown, or `undefined` when `n <= 0`; a sleep comes before every call but the first |
| Retry.ScheduleCounts | src/utils/retry.ts:9-12 | `k` calls come with `k - 1` sleeps |

## Left out

- Puppeteer is not modelled: browser launch, page creation and navigation, the token lookup, the in-page fetch script, and closing the browser. Page creation and dispatch are inputs that either succeed or fail.
- Real timers and the event loop are not modelled. Each query, result, error, timer firing and dispose is one atomic step. The interleavings between the `await`s in `queryDocumentStatus` and `requestPage` are not modelled, so the vacancy check and the decrement happen in one step.
- The per-request timeout table is modelled as its set of request ids, without the timer handles. The result and error callbacks read a handle only to cancel it with `clearTimeout`, and that cancellation is not modelled. Instead a timer event may fire for any request id at any step, which covers more firings than the source allows. The timer callback itself only checks whether its request id is still a key, so a cleared timer firing, or the legacy provider's overwritten and never-cleared one, behaves like such an event.
- date-fns `parse`, `format` and `differenceInCalendarDays` are inputs: a date-parsing function that yields none for an Invalid Date, and functions giving the formatted date and the calendar-day difference from now of a valid date. `format` is taken to throw only on an Invalid Date. `sanitize-html` is also an input: the sanitised message. The clock is an integer in milliseconds.
- Format.FormatResult: states the reply's start and its end from the date line on, but not the separator between the answer and the date line. On an Invalid Date the date shows as "не відомо" because the fallback reads a `rawStatusDate` field that a status never has.
- The Telegram and Fastify wiring is not modelled: the checker handler's `handleMessage`, `handleStatusResult` and `handleStatusError` send replies and log, and the application bootstrap, logger and start command are left out too. The handler is assumed registered with every provider, as the service does in its constructor.
- Formatting of a thrown value that is not a query error (a browser or runtime exception) is not modelled. `QueryError.from` is called on it but defined nowhere. Such errors are passed through the cache and provider as untyped errors.
- `service.ts` is pure composition. Its four-hour TTL and thirty-minute sweep interval are used in `Cache.ServiceConfig`.
- The convict schema, the env-file autoloading and URL parsing are not modelled. The webhook takes the base URL's host, origin and path name as inputs.
- ConfigFormats: JavaScript numbers are integers here. `NaN`, infinities and fractional values, and objects with their own `toString`, are not modelled. `JsString.IntToString` writes every integer in plain decimal, while JavaScript switches to exponent form from 1e21 in magnitude on.
- The birth-certificate parser is the stub the code has. It never matches, so no birth-certificate reference is ever produced.
- Retry.Run: a returned value with a `then` member is awaited in the source. Here an attempt either returns a value or throws, which covers a promise that resolves or rejects.

## Findings

| source | as written | input that shows it | evidently intended | confidence | as-written member | corrected member |
|---|---|---|---|---|---|---|
| src/services/checker/cache.ts:70-73 | `differenceInMilliseconds(createdAt, now)` is createdAt − now, which is never positive for a past entry, so `diff >= ttl` never holds for a positive TTL | a status stored at time 0 and queried at 31 536 000 000 ms (one year later) with the four-hour TTL is still served, and the sweep keeps it | the entry's age, now − createdAt, compared with the TTL | high (not executed) | Cache.AsWrittenServesStaleEntry | Cache.IntendedExpiredEntryForwarded |
| src/services/checker/browser/browser.ts:117-119 | after creating a page, `requestPage` ends with a bare `return`, so the caller gets `undefined` and the new page is lost | an empty pool with one vacancy: the query fails with a type error on `page.evaluate`, the counter drops to 0, and every later query is refused with the quota error | `return page`, as the current provider does, so the page is returned to the pool and the counter is restored | high (not executed) | LegacyBrowser.CreatePathLosesSlot | Provider.RunKeepsVacancy |
| src/services/checker/browser/provider.ts:122 | `page && !page.isClosed` reads Puppeteer's `isClosed` method without calling it; a function is truthy, so the test is always false and an idle page is never reused | a pool holding one open idle page: the query drops it and creates a new one | `!page.isClosed()`, so an open idle page is handed out again and the pool is kept | medium: Puppeteer is not part of this model (not executed) | Provider.SourceNeverReusesPages | Provider.ReusedPageRestoresPool |
