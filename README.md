# Firecrawl scrape controller and end-to-end test helpers, in Dafny

This project models two parts of the Firecrawl API server.

**The v1 scrape controller** (`apps/api/src/controllers/v1/scrape.ts`) handles one
`POST /v1/scrape` request. It submits a scrape job to the queue under a fresh job id
and waits for it with the caller's timeout. A failed wait is classified:

- a timeout (an `Error` whose message starts `Job wait`) gives 408;
- anything else gives 500.

After a successful wait the controller removes the job. An empty result gives 200 with
the warning `No page found`. Otherwise it strips the document's internal `index` and
`provider` fields and bills the team one credit; a billing failure gives 402. It then
logs the job and answers 200 with the document reshaped for the public API, where
`pageError` and `pageStatusCode` in the metadata become `error` and `statusCode`.

Module `ScrapeController` (`scrape.dfy`) models this as follows:

- The queue, the billing ledger and the job log become inputs: how the wait ended, and
  whether billing succeeded.
- The controller is the method `Scrape`. It returns the HTTP response and the ordered
  trace of effects it asked for: `Submit`, `Wait`, `Remove`, `Bill`, `Log`.
- Every trace is a prefix of that lifecycle. The lemmas turn this into "each step at
  most once" and "every step precedes every later one".
- Response shaping is the total function `ShapeResponse`, with `PublicMetadata` for the
  metadata rename.
- `Serialized` is the view JSON serialisation gives: keys set to `undefined` are dropped.

**The end-to-end test library** (`apps/api/src/__tests__/snips/lib.ts`) derives the test
suite's configuration from the environment when it loads. It covers:

- the API URL, and the suite-website URL with one trailing slash stripped;
- the self-hosted / production switch;
- the feature flags (AI, Playwright, proxy, search, whether the suite website may be
  used);
- a guard that refuses a local suite website when testing production, and enables local
  webhooks when self-hosted;
- the request the `idmux` helper sends to the identity broker.

Module `TestLib` (`test_lib.dfy`) models the environment as an explicit record. A
variable counts as set when it is present and non-empty, as `||` and `!!` read it.

The local-address test is one case-insensitive regular expression. Module `LocalUrl`
(`local_url.dfy`) models it twice and proves the two equal:

- `MatchesLocalPattern` reads the pattern as a language over cut positions, which is how
  the regular expression's backtracking reads it.
- `IsLocalUrl` is a deterministic left-to-right scanner.

`Wrappers` (`wrappers.dfy`) holds the `Option` and `Result` types.

A failed wait leaves the job in the queue. Both wait-failure branches return (`scrape.ts`
lines 38 and 43) before `job.remove()` at line 50, so `Remove` is recorded only after a
successful wait.

## Model

| member | source | states |
|---|---|---|
| `ScrapeController.Scrape` | apps/api/src/controllers/v1/scrape.ts:11-120 | Every path first submits the job (`JobFor`) under the given job id, then waits with the request's timeout; the trace follows the lifecycle Submit, Wait, Remove, Bill, Log (so, by `LifecycleCounts` and `LifecycleOrder`, no step repeats and none comes out of order). A failed wait stops after Wait (2 effects) and answers `WaitFailureResponse`. A successful wait removes that job id. No document: 200, `success`, warning "No page found", no data, 3 effects. A document: the team is billed 1 credit. Billing failed: 402, no `success`, the billing error, no data, 4 effects. Otherwise 5 effects: the log entry is `LogRecordFor` the first document alone, stripped, under the submitted job id. The response is 200 with `ShapeResponse` of that document. |
| `ScrapeController.WaitFailureResponse` | apps/api/src/controllers/v1/scrape.ts:35-47 | Status 408 iff the thrown value is an `Error` whose message starts with "Job wait", and 500 otherwise. `success` is false, the error is "Request timed out" or "Internal server error" to match, and there is no warning and no data. |
| `ScrapeController.NonErrorThrowIsInternal` | apps/api/src/controllers/v1/scrape.ts:37-47 | A thrown value that is not an `Error` object is a 500 "Internal server error", whatever it contains. |
| `ScrapeController.StripInternal` | apps/api/src/controllers/v1/scrape.ts:61-62 | `index` and `provider` are absent afterwards; putting the old values back gives the original document, so nothing else changed. |
| `ScrapeController.NumTokens` | apps/api/src/controllers/v1/scrape.ts:66 | The logged token count is 0 when the markdown is absent or empty, and the tokenizer's count otherwise. |
| `ScrapeController.JobFor` | apps/api/src/controllers/v1/scrape.ts:22-30 | The submitted job carries the request's URL, origin and page options and the authenticated team. Its mode is "single_urls", and its crawler and extractor options are empty. |
| `ScrapeController.LogRecordFor` | apps/api/src/controllers/v1/scrape.ts:85-100 | The log entry has the job id, success, "Scrape completed", 1 document (the one given), the team, mode "scrape", the request's URL, origin and page options, empty crawler options, extractor mode "markdown" and the token count. |
| `ScrapeController.PublicMetadata` | apps/api/src/controllers/v1/scrape.ts:111-117 | The keys are the document's keys plus the four rewritten keys. `error` holds the document's `pageError` and `statusCode` holds its `pageStatusCode` (`undefined` when missing). `pageError` and `pageStatusCode` are set to `undefined`. Every other key keeps its value. |
| `ScrapeController.ShapeResponse` | apps/api/src/controllers/v1/scrape.ts:102-119 | The public document takes `links` from `linksOnPage`. Markdown, raw HTML, HTML and both screenshots are copied. The metadata is `PublicMetadata` of the document's metadata. |
| `ScrapeController.Serialized` | apps/api/src/controllers/v1/scrape.ts:38-119 | JSON serialisation of a response's metadata keeps every key whose value is defined, with that value, and drops the rest: only keys the object has appear, and no `undefined` value survives. |
| `ScrapeController.PublicMetadataSerialized` | apps/api/src/controllers/v1/scrape.ts:111-117 | Once serialised, `pageError` and `pageStatusCode` never appear. `error` and `statusCode` appear exactly when the document's `pageError` and `pageStatusCode` are defined, with their values. Every other key serialises as in the document's own metadata. |
| `ScrapeController.PublicMetadataIgnoresIncomingError` | apps/api/src/controllers/v1/scrape.ts:112-116 | Whatever the incoming metadata holds under `error` and `statusCode` does not reach the response: it is overwritten. |
| `ScrapeController.PublicMetadataAtIgnoresIncomingError` | apps/api/src/controllers/v1/scrape.ts:112-116 | The same fact, key by key. |
| `ScrapeController.ShapeResponseIgnoresInternal` | apps/api/src/controllers/v1/scrape.ts:102-119 | The response data depends neither on `index` and `provider` nor on any document field the literal does not list, so stripping them never changes it. |
| `ScrapeController.LifecycleCounts` | apps/api/src/controllers/v1/scrape.ts:22-100 | In a trace that follows the lifecycle, each kind of effect occurs exactly once if the trace reaches its position, and never otherwise. |
| `ScrapeController.LifecycleOrder` | apps/api/src/controllers/v1/scrape.ts:22-100 | In a trace that follows the lifecycle, every effect comes before every effect of a later kind (submit before wait before remove before bill before log). |
| `TestLib.OrDefault` | apps/api/src/__tests__/snips/lib.ts:10 | A set variable's value, or the default when the variable is missing or empty. |
| `TestLib.StripTrailingSlash` | apps/api/src/__tests__/snips/lib.ts:13-16 | Fails with "Invalid URL supplied" iff the URL is empty. Otherwise the input is the result plus "/" when its last character is a slash, and the result itself when it is not. |
| `TestLib.StripTrailingSlashIsPrefix` | apps/api/src/__tests__/snips/lib.ts:15 | The result is a prefix of the input, and is as long as it or one character shorter. |
| `TestLib.StripTrailingSlashUndoesSlash` | apps/api/src/__tests__/snips/lib.ts:13-16 | Appending a slash and stripping gives the original URL back, for every URL including the empty one. |
| `TestLib.StripTrailingSlashRemovesOneSlash` | apps/api/src/__tests__/snips/lib.ts:15 | Only one slash is removed: any URL ending in two slashes keeps one of them ("a//" becomes "a/"). |
| `TestLib.TestSelfHost` | apps/api/src/__tests__/snips/lib.ts:22 | The run is self-hosted iff TEST_SUITE_SELF_HOSTED is exactly "true": unset, or any other value, means production. |
| `TestLib.TestSuiteWebsite` | apps/api/src/__tests__/snips/lib.ts:18-20 | The suite website always loads, so stripping never fails on it. A missing or empty variable gives the default `http://127.0.0.1:4321`; a set one gives the variable with one trailing slash stripped. |
| `TestLib.SuiteWebsiteNeverInvalid` | apps/api/src/__tests__/snips/lib.ts:18-20 | Loading never fails with "Invalid URL supplied". |
| `TestLib.LocalUrlGuard` | apps/api/src/__tests__/snips/lib.ts:53-61 | Fails with the production error iff the site is local and the run is not self-hosted. A local site in a self-hosted run sets ALLOW_LOCAL_WEBHOOKS to "true". A non-local site leaves the environment unchanged. |
| `TestLib.LoadConfig` | apps/api/src/__tests__/snips/lib.ts:18-61 | Loading fails iff the run is not self-hosted and the suite website is local. A failure is the "TEST_SUITE_WEBSITE cannot be a local address ..." error. Otherwise TEST_PRODUCTION is the negation of TEST_SELF_HOST, TEST_SELF_HOST is TEST_SUITE_SELF_HOSTED == "true", and the website is the stripped one. TEST_API_URL is the variable or `http://127.0.0.1:3002`. HAS_AI holds iff OPENAI_API_KEY or OLLAMA_BASE_URL is set, HAS_PLAYWRIGHT iff PLAYWRIGHT_MICROSERVICE_URL is set, HAS_PROXY iff PROXY_SERVER is set, and HAS_SEARCH iff the run is production or SEARXNG_ENDPOINT is set. ALLOW_TEST_SUITE_WEBSITE holds iff the run is production, or the website is local and there is no proxy. The environment is unchanged when the website is not local, and gets ALLOW_LOCAL_WEBHOOKS = "true" when it is. |
| `TestLib.LoadedFlags` | apps/api/src/__tests__/snips/lib.ts:22-41 | HAS_SEARCH holds whenever testing production. ALLOW_TEST_SUITE_WEBSITE holds whenever not self-hosted, and in a self-hosted run iff the website is local and no proxy is set. HAS_PROXY is whether PROXY_SERVER is set. |
| `TestLib.ProductionSiteIsRemote` | apps/api/src/__tests__/snips/lib.ts:53-61 | After a successful load in production the website is not local, and the environment is unchanged. |
| `TestLib.SelfHostedLocalSiteAllowsWebhooks` | apps/api/src/__tests__/snips/lib.ts:53-55 | When the run is self-hosted and the website is local, loading succeeds, and the environment differs from the input only in ALLOW_LOCAL_WEBHOOKS = "true". |
| `TestLib.CreateTestIdUrl` | apps/api/src/__tests__/snips/lib.ts:50-51 | The URL is the suite website followed by "?testId=" and the id. |
| `TestLib.CreateTestIdUrlParsesBack` | apps/api/src/__tests__/snips/lib.ts:50-51 | The text after the website and "?testId=" is exactly the id, so two ids on one website give the same URL only when they are equal. |
| `TestLib.RunNumber` | apps/api/src/__tests__/snips/lib.ts:92-95 | The run number is the parsed value when parsing succeeded, and 0 otherwise. |
| `TestLib.Idmux` | apps/api/src/__tests__/snips/lib.ts:81-104 | Without IDMUX_URL, the test identity is TEST_API_KEY and TEST_TEAM_ID. Otherwise the request is posted to IDMUX_URL + "/". Its body holds GITHUB_REF_NAME, the run number, the requested concurrency (default 100), and the request's name, team, credits and tokens. |
| `LocalUrl.IsLocalUrl` | apps/api/src/__tests__/snips/lib.ts:34-37 | A URL the scanner accepts starts with `http://` or `https://` in any case. `IsLocalUrlMatchesPattern` shows the scanner accepts exactly the pattern's language. |
| `LocalUrl.MatchesLocalPattern` | apps/api/src/__tests__/snips/lib.ts:35 | The pattern is anchored at the start: a match has its scheme (7 or 8 characters, `http://` or `https://`) at position 0. |
| `LocalUrl.IsLocalUrlMatchesPattern` | apps/api/src/__tests__/snips/lib.ts:34-37 | The scanner accepts a URL iff it matches the pattern. The pattern is: `http://` or `https://` in any case; then `localhost`, `127.0.0.1`, or a 10/8, 192.168/16 or 172.16/12 address of 1-3 digit octets; then an optional `:` and digits; then the end or one of `/`, `?`, `#`. |
| `LocalUrl.IsLocalUrlSound` | apps/api/src/__tests__/snips/lib.ts:35 | Every URL the scanner accepts matches the pattern. |
| `LocalUrl.IsLocalUrlComplete` | apps/api/src/__tests__/snips/lib.ts:35 | Every URL matching the pattern is accepted by the scanner, whichever cut of it matches. |
| `LocalUrl.SchemeEndIff` | apps/api/src/__tests__/snips/lib.ts:35 | The scanner's scheme ends at `i` iff `http://` or `https://` (any case) occupies the first `i` characters. |
| `LocalUrl.HostEndSound` | apps/api/src/__tests__/snips/lib.ts:35 | A host the scanner finds is one of the pattern's host alternatives. |
| `LocalUrl.HostEndComplete` | apps/api/src/__tests__/snips/lib.ts:35 | A host alternative followed by a non-digit or the end is the one the scanner finds. |
| `LocalUrl.DottedOctetsEndSound` | apps/api/src/__tests__/snips/lib.ts:35 | Where the scanner finds `n` dotted octets, the text is `n` runs of 1-3 digits joined by dots. |
| `LocalUrl.DottedOctetsEndComplete` | apps/api/src/__tests__/snips/lib.ts:35 | `n` dotted octets followed by a non-digit or the end are found by the scanner, ending at the same place. |
| `LocalUrl.PortThenBoundaryAtSound` | apps/api/src/__tests__/snips/lib.ts:35 | The scanner's port-and-boundary check implies the pattern's: an optional `:` with at least one digit, then the end or `/`, `?`, `#`. |
| `LocalUrl.PortThenBoundaryAtComplete` | apps/api/src/__tests__/snips/lib.ts:35 | The pattern's port-and-boundary part implies the scanner's check. |
| `LocalUrl.Private172SecondRange` | apps/api/src/__tests__/snips/lib.ts:35 | The 172 alternative's second octet, as two digits, is accepted iff its value is 16..31. |
| `LocalUrl.Only172PrivateBlock` | apps/api/src/__tests__/snips/lib.ts:35 | A host starting `172.` is found only when its second octet is 16..31 followed by a dot, so `172.15.*` and `172.32.*` are not local. |
| `LocalUrl.OctetsNotRangeChecked` | apps/api/src/__tests__/snips/lib.ts:35 | Octets are not range-checked: `http://10.<d>.1.1` is local for every run `d` of one to three digits, `http://10.999.1.1` included. |

## Left out

- The job queue, its events, the billing service and the job log are external services.
  They are not modelled: their outcomes are inputs to `Scrape`, and what is asked of them
  is a trace effect. The `Wait` effect records the wait itself and its timeout.
- Request validation with the schema library and the conversion to legacy page options
  (`scrape.ts` lines 12 and 17) are not modelled: the request arrives validated, with its
  page options already converted.
- The Express response object is left out; the response is a value.
- The job id (a random UUID) and the test id in `CreateTestIdUrl` (a random UUID) are
  parameters.
- The wall-clock timing and the logged `time_taken` (`scrape.ts` lines 21 and 64-65) are
  left out, because they are clock reads and floating-point division.
- The tokenizer behind `numTokensFromString` is not part of this model. Its count for the
  markdown is an input.
- Console and logger output (`Logger.error`, `console.error`, `console.warn`) is left out.
- The `earlyReturn` branch (`scrape.ts` lines 13 and 69-72) is never taken: the flag is
  never set. The model always goes on to billing.
- `ScrapeController.Scrape` does not model the throws the controller does not catch: from
  `addScrapeJob` (`scrape.ts` line 22), `job.remove()` (line 50), `numTokensFromString`
  (line 66) and `billTeam` (line 74). Any of them rejects the handler's promise and none
  of the modelled responses is sent; a failing remove, for example, sends no response
  and bills nobody. The model treats these calls as always returning.
- `ScrapeController.Scrape` does not model a wait result whose first element is `null`;
  the documents are a list of documents.
- `ScrapeController.Scrape` does not model a document without a `metadata` object, on
  which the source's response shaping would throw.
- Metadata values are JSON scalars, with integer numbers. Nested objects, non-integer
  numbers and the order of object keys are not modelled.
- `ScrapeController.Serialized` only drops `undefined`-valued keys. The rest of JSON
  serialisation is not modelled.
- The identity broker's `fetch`, its error handling and the `expect` checks
  (`lib.ts` lines 97-115) are network and test-runner calls, and are left out.
- The `flags` field of an idmux request is left out.
- An explicitly `undefined` concurrency is not modelled. The source's `...req` spread
  would let it override the default of 100; only "absent" and "given" are modelled.
- `parseInt` is not modelled: GITHUB_RUN_NUMBER arrives as its parsed value, or as missing
  when parsing gives NaN.
- The conditional test wrappers (`describeIf`, `testIf`, `itIf`, `concurrentIf`), the
  constants `scrapeTimeout` and `indexCooldown`, and loading `.env` files are test-runner
  and process setup, and are left out.
- The case-insensitive match folds ASCII letters only. That is what the regular
  expression (without the `u` flag) does for the pattern's ASCII literals; other Unicode
  case folding is not modelled.
