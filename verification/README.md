# health-stats-agent in Dafny

A model of the core of the health-stats agent. This service exposes a conversational agent over A2A, an HTTP
JSON-RPC protocol. The agent answers questions with World Bank health indicators, which it reaches through a
tool that sits in front of a time-boxed cache.

The model has four parts, one Dafny module each:

- `A2aRoute` (`a2aroute.dfy`) models the `POST /a2a/agent/:agentId` handler as one pure function `Handle`. It
  reads and parses the body, then defaults and checks `jsonrpc`, then looks up the agent. Next it picks the
  messages, calls the agent's `generate`, builds the task and optionally schedules a push notification.
  Every path ends in a JSON-RPC envelope sent with HTTP 200. The handler's nondeterministic inputs are all
  explicit parameters:
  - how the body read ended;
  - the registered agent ids;
  - what `generate` did;
  - a supply `uuid: nat -> string` of UUIDs, indexed in the order the handler calls `randomUUID`;
  - the ISO timestamp.
- `CacheService` (`cache.dfy`) models the cache service. Its state is the `initialized` flag plus the table,
  held as a map from key to `(data, created_at, expires_at)`. `init`, `get`, `set` and `cleanup` are functions
  of that state. Three things are explicit parameters: how far lazy initialisation gets, whether the SQL
  statement throws, and the clock.
- `HealthTool` (`healthtool.dfy`) models `healthStatsTool.execute`. It covers country resolution, the cache
  key, the cache read, the World Bank request and its five ways to end, validation and shaping of the payload,
  the cache write, and the error messages with their wrapping.
- `Dictionary` (`dictionary.dfy`) models the `INDICATORS` and `COUNTRY_CODES` tables.

Three support modules model the JavaScript the code relies on:

- `Js` (`js.dfy`): JSON values, truthiness, `??`, property access and `String(n)`.
- `JsString` (`jsstring.dfy`): `toLowerCase` and `trim`.
- `Wrappers` (`wrappers.dfy`): `Option` and `Result`.

Some behaviour of the code is easy to misread, and the model keeps it as written:

- **No message normaliser.** The handler passes `params.messages` (or `[params.message]`) to `generate`
  unchanged. It does not rewrite `parts`-shaped messages, trim content or drop empty messages. It substitutes
  the user "Hello" message only when that list is empty.
- **No-text replies are not errors.** When the agent's reply has no usable text, the handler answers with
  "No response generated", or with the reply itself when that is a string. It does not report a generation
  error.
- **Malformed shapes fail in specific ways.** These bodies fail by a `TypeError` inside the handler:
  - A JSON `null` body gives -32700, with the message of reading `jsonrpc` of `null`.
  - A `messages` that is not an array gives -32603 with a null id.
  - A `null` element in the message list gives -32603 with a null id, and only after `generate` has run.
- **The country lookup is not total over the table.** Besides the table's own names it also accepts two
  inherited object members. The tool is modelled twice. `HealthTool.ExecuteAsWritten` uses the lookup as
  written (`HealthTool.LookupAsWritten`). `HealthTool.Execute` uses the corrected lookup
  (`HealthTool.ResolveCountry`), and the two agree on every name that is not an inherited member. The other
  tool properties below are stated about `Execute`. See Findings.

## Model

| member | source | states |
|---|---|---|
| `A2aRoute.Handle` | src/routes/a2a-agent-route.ts:8-222 | Every request is answered with HTTP 200 and a `"2.0"` envelope, whatever fails. A push notification is only ever a copy of a successful answer. |
| `A2aRoute.ParseErrorIff` | src/routes/a2a-agent-route.ts:17-51 | The answer is -32700 exactly when the body cannot be read: malformed JSON, with the parser's message as details, or a body that parses to `null`. The id is `null` and the agent is not consulted. |
| `A2aRoute.NullBodyText` | src/routes/a2a-agent-route.ts:19-44 | A JSON `null` body fails on reading `jsonrpc`. The -32700 answer carries the engine's message for reading `jsonrpc` of `null`. |
| `A2aRoute.DispatchAnswers` | src/routes/a2a-agent-route.ts:101-222 | Once `generate` is called, the answer is a success, -32001 or -32603, never a parse error. |
| `A2aRoute.VersionChecked` | src/routes/a2a-agent-route.ts:30-66 | A readable body is rejected with -32600 exactly when its `jsonrpc` is present and not `"2.0"`. A missing version counts as `"2.0"`. The rejection echoes the request id, which is the body's `id` or else a fresh UUID. |
| `A2aRoute.UnknownAgentListed` | src/routes/a2a-agent-route.ts:68-85 | Once the version passes, an agent id outside the registry gets -32000, naming the agent, with the registry's ids as `availableAgents`. |
| `A2aRoute.MessageSelection` | src/routes/a2a-agent-route.ts:88-90 | `messages` wins when present. Otherwise a truthy `message` becomes a one-element list, and with neither the list is empty. |
| `A2aRoute.AgentConsultedIff` | src/routes/a2a-agent-route.ts:87-106 | `generate` is called exactly for accepted requests: readable, right version, known agent, and a message list that is an array. It receives that list unchanged, or a single user "Hello" when the list is empty, so never an empty list. |
| `A2aRoute.NonListMessagesFail` | src/routes/a2a-agent-route.ts:94-97 | A message list that is not an array makes `.filter` throw. The outer catch answers -32603 with a null id. |
| `A2aRoute.GenerationErrorIff` | src/routes/a2a-agent-route.ts:101-124 | The answer is -32001 exactly when an accepted request's `generate` throws. It echoes the request id, carries the thrown message and sends no push, whatever the messages hold. |
| `A2aRoute.AgentTextChoice` | src/routes/a2a-agent-route.ts:100-110 | The reply text is the response's `text` when present. Otherwise it is the response itself when it is a string, and otherwise "No response generated". |
| `A2aRoute.SuccessIff` | src/routes/a2a-agent-route.ts:126-168 | An accepted request whose `generate` returned succeeds exactly when no message is `null` or `undefined`. Otherwise the history map throws, and the answer is -32603 with a null id and the message for reading `role` of such a message. |
| `A2aRoute.SuccessfulTask` | src/routes/a2a-agent-route.ts:126-200 | A success echoes the request id and carries a completed task. It keeps the given task and context ids, and has one status message and one artifact `<agentId>Response` with the reply text. Its history renders each message in order (role or "user", content or "", given message id), then the agent's reply under the status message's id, all tagged with the task id. |
| `A2aRoute.History` | src/routes/a2a-agent-route.ts:151-158 | The history map yields one entry per message. It fails exactly when some message is `null` or `undefined`, and it reports the first such message, every earlier one being readable. |
| `A2aRoute.Render` | src/routes/a2a-agent-route.ts:152-158 | Every history entry carries a role and a message id that are neither null nor undefined. The entry keeps the message's own id exactly when the message has one, and otherwise takes the fresh id. It also echoes the task id and a single text part. |
| `A2aRoute.HistoryRenders` | src/routes/a2a-agent-route.ts:151-158 | The k-th entry renders the k-th message. A message without an id takes fresh UUID number `next` plus the number of earlier messages that also had none. |
| `A2aRoute.Dispatch` | src/routes/a2a-agent-route.ts:101-200 | The handler after the agent lookup. Every answer has status 200 and version "2.0", and `generate` always receives the selected messages. A failure is -32001 or -32603. A success echoes the request id, and a push only ever carries that success. The task itself is stated by `DispatchCompletes`, `SuccessfulTask` and `DispatchIds`. |
| `A2aRoute.DispatchCompletes` | src/routes/a2a-agent-route.ts:126-168 | When `generate` returned and every message is readable, the answer is the completed task over the drawn ids and the rendered history. |
| `A2aRoute.DrawIdsOrder` | src/routes/a2a-agent-route.ts:127-146 | The task id and the context id are drawn when missing, in that order, then the status message's id, then the artifact's. History ids are drawn after those. |
| `A2aRoute.AcceptedDispatches` | src/routes/a2a-agent-route.ts:87-106 | An accepted request goes on to `generate` with its parameters, its messages and its request id. The first UUID drawn after that is number 2 when the id was generated, and 1 otherwise. |
| `A2aRoute.DispatchIds` | src/routes/a2a-agent-route.ts:127-158 | Gives the UUID order: the task id and context id when they are missing, then the status message, then the artifact, then one per history message that lacks a `messageId`. |
| `A2aRoute.MissingGrows` | src/routes/a2a-agent-route.ts:152-157 | The count of messages that lack a `messageId` grows strictly past each such message, so two of them never draw the same UUID. |
| `A2aRoute.GeneratedIdsDistinct` | src/routes/a2a-agent-route.ts:15-158 | Given distinct UUIDs, no two ids that one successful request generates coincide. This covers the status message, the artifact, the task and context ids when generated, and every history message that had no id, in every pair. When the body had no `id`, the request id is generated too: it is UUID number 1 and differs from all the others. |
| `A2aRoute.DispatchRequestIdDiffers` | src/routes/a2a-agent-route.ts:127-196 | A request id drawn before the task's ids differs from every id of the successful task, and the answer echoes it. |
| `A2aRoute.PushIff` | src/routes/a2a-agent-route.ts:170-190 | A push is sent exactly for a successful request whose `configuration` has `blocking === false` and a truthy `pushNotificationConfig.url`. It goes to that URL, carries a bearer token exactly when the configured token is truthy, and its body is the answer's envelope. |
| `A2aRoute.BlockingNeverPushes` | src/routes/a2a-agent-route.ts:171-172 | No push is sent when `blocking` is absent, `true` or any value other than `false`. |
| `CacheService.Init` | src/services/cache.service.ts:12-40 | Once initialised it never re-runs. A missing client or a failing `DROP` leaves the cache disabled and untouched. A failing `CREATE` leaves it disabled with the table gone. Only success sets the flag, on an empty table. |
| `CacheService.Get` | src/services/cache.service.ts:42-66 | Returns the stored data exactly when the cache is initialised, the query succeeds, and the key's row has `expires_at > now`. Otherwise it returns `null`. |
| `CacheService.Set` | src/services/cache.service.ts:68-86 | Upserts the row `(data, now, now + ttl)` under the key and keeps every other row. Disabled or throwing, it changes nothing beyond `init`. |
| `CacheService.Cleanup` | src/services/cache.service.ts:88-101 | Removes exactly the rows with `expires_at <= now` and keeps the others unchanged. Disabled or throwing, it changes nothing. |
| `CacheService.CacheTtlValue` | src/services/cache.service.ts:104-105 | `CACHE_TTL` is 90 days: 7,776,000,000 ms. |
| `CacheService.DisabledCacheIsInert` | src/services/cache.service.ts:42-90 | A cache whose `init` did not succeed misses on every read and ignores every write and sweep. |
| `CacheService.StorageErrorsAreAbsorbed` | src/services/cache.service.ts:62-100 | A throwing statement never escapes. The read misses, and the write or sweep leaves the state `init` produced. |
| `CacheService.SetThenGet` | src/services/cache.service.ts:42-86 | Round trip: after a successful `set(key, data, ttl)` at `now`, a successful `get(key)` at time `t` returns `data` while `t < now + ttl` and misses from then on. |
| `CacheService.SetLeavesOtherKeys` | src/services/cache.service.ts:68-86 | A write to one key does not change what any other key reads. |
| `CacheService.CleanupPreservesReads` | src/services/cache.service.ts:51-97 | In any state, including a sweep that is the call that first initialises the cache, a sweep at `now` cannot be observed by reads at `now`, because it only deletes rows those reads already miss. |
| `CacheService.InitializedNeverCleared` | src/services/cache.service.ts:12-35 | Once initialised, the flag stays set and the table is never cleared again. A row survives any sequence of calls that neither overwrites its key nor sweeps at or after its expiry. |
| `Dictionary.TableToMap` | src/utils/helper.ts:12-60 | The record the object literal builds has exactly the table's names as keys. |
| `Dictionary.TableToMapLookup` | src/utils/helper.ts:12-60 | When the names are distinct, each entry is what the record holds for its name. |
| `Dictionary.TableToMapSize` | src/utils/helper.ts:12-60 | When the names are distinct, the record has one key per entry. |
| `Dictionary.IndicatorTableMatchesEnum` | src/utils/helper.ts:2-9 | `INDICATORS` has exactly the six identifiers of the tool's input enum, so every indicator has a series code. |
| `Dictionary.IndicatorCodesDistinct` | src/utils/helper.ts:2-9 | No two indicators share a World Bank series code. |
| `Dictionary.CountryNamesDistinct` | src/utils/helper.ts:12-60 | No name appears twice in `COUNTRY_CODES`. |
| `Dictionary.CountryEntry` | src/utils/helper.ts:12-60 | Every key of `COUNTRY_CODES` is an entry of the table and maps to that entry's code. |
| `Dictionary.CountryCodesAreAlpha3` | src/utils/helper.ts:12-60 | Every country code is three upper-case letters. |
| `Dictionary.CountryKeysAreLowerNames` | src/utils/helper.ts:12-60 | Every country name is lower-case letters with inner spaces only, so it is reachable through lower-casing and trimming. |
| `Dictionary.CountryNameCount` | src/utils/helper.ts:12-60 | `COUNTRY_CODES` has 38 names. |
| `Dictionary.AliasesShareCode` | src/utils/helper.ts:26-37 | "usa" and "united states" both map to USA, and "uk" and "united kingdom" both map to GBR. |
| `Dictionary.OnlyAliasesCollide` | src/utils/helper.ts:12-60 | Two different names share a code only when they are one of those alias pairs. |
| `Dictionary.CountryCodeCount` | src/utils/helper.ts:12-60 | The 38 names share 36 distinct codes. |
| `JsString.Lower` | src/tools/health-tool.ts:52 | Lower-casing keeps the length and leaves no upper-case ASCII letter. |
| `JsString.LowerOfUpperAscii` | src/tools/health-tool.ts:52 | Lower-casing undoes capitalisation of a name without upper-case letters and keeps surrounding white space. |
| `JsString.TrimStart` | src/tools/health-tool.ts:52 | The result is the suffix left after dropping every leading white-space or line-terminator character, and it starts with neither. |
| `JsString.TrimEnd` | src/tools/health-tool.ts:52 | The result is the prefix left after dropping every trailing white-space or line-terminator character, and it ends with neither. |
| `JsString.TrimBounds` | src/tools/health-tool.ts:52 | Gives the cut points of `trim`: the result is `s[a..b]`, everything before `a` and from `b` on is trimmable, and the result has no trimmable end. |
| `JsString.TrimIsSlice` | src/tools/health-tool.ts:52 | `trim` returns a slice of its input. Everything cut on either side is trimmable, and the slice has no trimmable end. |
| `JsString.TrimIdempotent` | src/tools/health-tool.ts:52 | Trimming twice is trimming once. |
| `JsString.TrimIgnoresPadding` | src/tools/health-tool.ts:52 | Trimming a trimmed string padded with trimmable characters gives the string back. |
| `Js.DecimalRoundTrip` | src/tools/health-tool.ts:88-92 | The status code printed in the API error message reads back as the same number. |
| `HealthTool.ResolveCountry` | src/tools/health-tool.ts:52-59 | The corrected lookup accepts a country exactly when its lower-cased, trimmed name is a key of `COUNTRY_CODES`, and yields that key's code. |
| `HealthTool.CountryNamesResolve` | src/tools/health-tool.ts:52-53 | Every name of the table resolves to its own code. |
| `HealthTool.ResolveIgnoresCaseAndPadding` | src/tools/health-tool.ts:52-53 | A name in capitals, padded with any white space or line terminators, resolves to the same code as the name itself. |
| `HealthTool.CacheKeyInjective` | src/tools/health-tool.ts:62 | Keys `health:<code>:<indicator>` built from alpha-3 codes are equal only for equal code and indicator. |
| `HealthTool.ResolvedKeyShape` | src/tools/health-tool.ts:52-62 | A resolved country yields an alpha-3 code and a cache key of length 11 plus the indicator's length. |
| `HealthTool.UnrecognizedCountryFailsFirst` | src/tools/health-tool.ts:55-59 | With the corrected lookup, a country that is not a table name fails with the unwrapped "not recognized" message, and neither the cache nor the network is touched. |
| `HealthTool.CacheHitShortCircuits` | src/tools/health-tool.ts:64-68 | A cache hit is returned as stored and no request is made. |
| `HealthTool.NoCacheServiceMeansNoCache` | src/tools/health-tool.ts:64-71 | Without a cache service nothing is read or written, and the query for the country's code and the indicator's series is always sent. |
| `HealthTool.Execute` | src/tools/health-tool.ts:51-150 | The tool with the corrected lookup. A request is only sent for a name that resolves. The other properties are stated by `UnrecognizedCountryFailsFirst`, `CacheHitShortCircuits`, `MissedExecution` and `RequestMeansMiss`. |
| `HealthTool.ExecuteFor` | src/tools/health-tool.ts:61-139 | The tool past the guard, for the looked-up code. Only a cache hit avoids the request, and a hit is a record. A request is always for the code's World Bank URL, and the answer is what that request yields. Without a cache service no cache is kept and the request is always sent. |
| `HealthTool.Fetched` | src/tools/health-tool.ts:75-150 | Once the cache missed, a record comes only from a received payload and is that payload shaped. A payload that cannot be shaped fails with the shaping error behind the wrapping prefix. |
| `HealthTool.MissedExecution` | src/tools/health-tool.ts:64-139 | After a miss, the tool sends the request for the country's code and the indicator, returns what the request yields, and writes the cache only when that is a record. |
| `HealthTool.RequestMeansMiss` | src/tools/health-tool.ts:52-71 | With the corrected lookup, a request is only sent after the name resolved to a table entry and the cache missed. |
| `HealthTool.AbortIsTimeout` | src/tools/health-tool.ts:76-86 | An aborted request fails with the timeout message. |
| `HealthTool.TimeoutIsNotWrapped` | src/tools/health-tool.ts:140-147 | The timeout message does not carry the "Failed to fetch health data: " prefix. |
| `HealthTool.NotOkIsWrapped` | src/tools/health-tool.ts:88-92 | A non-ok status fails with "World Bank API error: <status> <text>" behind the wrapping prefix, and the cache is not written. |
| `HealthTool.Shape` | src/tools/health-tool.ts:94-132 | Validation and shaping of the World Bank body. A record always has the queried indicator, `success` true and a truthy value. A `null` or `undefined` body fails with the engine's text for reading index 1. The rejection cases are stated by `ShapeRejectsMissingData` and the record fields by `ShapedRecord`. |
| `HealthTool.ShapeRejectsMissingData` | src/tools/health-tool.ts:94-101 | No points, a `null` or empty point list, or a first point whose `value` is missing, `null` or 0 all give the "no data" error. |
| `HealthTool.NoDataIsWrapped` | src/tools/health-tool.ts:94-101 | Such payloads make the tool fail with the wrapped "no data" message, and nothing is written to the cache. |
| `HealthTool.ShapedRecord` | src/tools/health-tool.ts:103-132 | A shaped record carries the indicator, its display name and unit, and `success = true`. Its country name, code, year and value come from the payload's first point, and the value is truthy. |
| `HealthTool.FetchedResultIsCached` | src/tools/health-tool.ts:123-139 | A fetched record is the shaped payload. When the write goes through, the cache holds it under the query's key for `CACHE_TTL`. |
| `HealthTool.RepeatedQueryHitsCache` | src/tools/health-tool.ts:52-139 | A fetch is memoised. Asking again before `CACHE_TTL` runs out, under any name of the same country, returns the same record without a request. |
| `HealthTool.LookupAsWritten` | src/tools/health-tool.ts:52-55 | The lookup as written rejects a name only when it is neither a key of the table nor a member inherited from `Object.prototype`. |
| `HealthTool.ExecuteAsWritten` | src/tools/health-tool.ts:51-150 | The tool as written. A request is only sent when the object lookup found something, whether an own entry or an inherited member. Its relation to the corrected tool is stated by `AsWrittenAgreesOffInherited` and `InheritedNameIsFetched`. |
| `HealthTool.InheritedNamePassesGuard` | src/tools/health-tool.ts:52-59 | "Constructor " passes the `!countryCode` guard as written, but no country has that name and the corrected lookup rejects it. |
| `HealthTool.AsWrittenAgreesOffInherited` | src/tools/health-tool.ts:52-139 | The tool as written and the corrected tool give the same answer, cache and request for every name the as-written lookup does not resolve to an inherited member. For the inherited ones the corrected tool fails with "not recognized" and touches nothing. |
| `HealthTool.InheritedNameIsFetched` | src/tools/health-tool.ts:52-76 | As written, "Constructor " is treated as a country: on an empty cache the tool sends a World Bank request whose path holds the text of the `Object` constructor. The corrected tool sends nothing for that name. |
| `HealthTool.ReachableInheritedMembers` | src/tools/health-tool.ts:52-55 | After lower-casing and trimming, exactly two inherited members are reachable: "constructor" and "__proto__". |
| `HealthTool.ResolveAcceptsOnlyTableNames` | src/tools/health-tool.ts:52-59 | The corrected lookup accepts exactly the names the as-written lookup finds as own entries. |

## Left out

- The HTTP framework's body reading is left out. The model starts from what the parsing steps leave in `body`:
  nothing, a parse failure with its message, or a value. How the framework caches a body it failed to parse as
  JSON is not part of this model.
- `mastra.getAgent` and `mastra.getAgents` are external and are not part of this model. They are modelled by one
  registry of agent ids. The agent is found exactly when its id is in the registry, and `availableAgents` is that
  list. For an unknown id, `getAgent` is assumed to return a falsy value rather than throw. The -32000 answer
  depends on that. If it threw instead, the outer catch would answer -32603.
- The agent's `generate` is external. It is modelled as its outcome: the thrown message (the value of
  `genErr?.message ?? String(genErr)`) or the returned value.
- `randomUUID`, `Date.now()` and `new Date().toISOString()` are parameters. UUIDs come from an indexed supply
  and are not checked for format.
- A2aRoute.Handle: the `stack` field of the -32603 error data is left out, because it depends on `NODE_ENV` and
  on the engine. So are exceptions raised while serialising the answer (`c.json`, `JSON.stringify`) and
  exceptions from string conversion of exotic values. Those values are objects in the messages whose `content`
  is joined into `userMessage`, and a push token whose conversion to text throws. The model assumes these
  conversions succeed.
- Logging (`console.log`, `console.warn`, `console.error`) is left out. It has no effect on results.
- The push notification's delivery is left out. It is fire-and-forget, its failure is only logged, and the
  model records the request that is started.
- Concurrency is left out. Two interleaved requests, or two overlapping lazy `init` calls of the cache, are not
  modelled. Each call is atomic.
- The sweep schedule (at start-up and every six hours) lives outside the cache service. It is not part of this
  model, though each sweep is `CacheService.Cleanup`.
- The cache stores values as JSON text and parses them back. The model stores the value itself, assuming that
  `JSON.parse(JSON.stringify(x))` gives `x` for the tool's records.
- JsString.Lower: only ASCII letters and the Kelvin sign (U+212A, which lower-cases to `k`) are mapped. Other
  Unicode case mappings never produce a table name or an inherited member name, so the lookup does not depend
  on them.
- Strings are sequences of Unicode scalar values. They are not UTF-16 code units, which only matters for
  characters outside the Basic Multilingual Plane.
- The World Bank HTTP exchange is left out. The model takes its outcome as a parameter: aborted by the
  10-second timer, failed, a non-ok status, an unreadable body, or a parsed payload. The timer itself is not
  modelled.
- Payload values are modelled as JSON values. The `z.number().nullable()` output schema is not enforced by the
  tool itself and is not modelled.

## Findings

| source | as written | input that shows it | evidently intended | confidence | as-written member | corrected member |
|---|---|---|---|---|---|---|
| src/tools/health-tool.ts:52-59 | `COUNTRY_CODES[countryLower]` indexes a plain object literal, so it also finds members inherited from `Object.prototype`. These are truthy and pass the `!countryCode` guard. | country "Constructor " (or "__proto__") is accepted as a country. The cache key and World Bank URL are then built from a function or object instead of a country code. | only the table's own names resolve, and every other name fails with "not recognized" | not executed | `HealthTool.InheritedNameIsFetched` | `HealthTool.ResolveCountry` |
