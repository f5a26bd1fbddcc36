# Meeting-bot tool server: dispatch and formatting core

This project models the tool layer of the meeting-bot MCP server in
`src/index.ts`. The server offers five tools: create a bot, get its status,
get its transcript, list bots, and remove a bot. A tool call is routed by its
name. The handler validates the call's arguments and issues one request to
the meeting-bot API. It then renders the reply as display text. Every
outcome, failures included, is answered as a single text block.

Nothing in this layer outlives a call. The model is therefore made of values
and functions. Two parts change state step by step in the source, and those
are methods:

- The gateway builds its header dictionary in place.
- The transcript array branch grows its text with `+=` inside a loop.

Both methods are proved equal to the specification functions that the rest
of the model uses.

The files:

- `strings.dfy` holds the text helpers: `repeat`, `join`, `split`, `padStart` and decimal rendering with read-back.
- `values.dfy` holds three modules:
  - `Wrappers`: `Option` and `Result`.
  - `Errors`: the thrown errors and their messages.
  - `JsValues`: JSON-like JavaScript values, truthiness, property reads that throw on null, template-literal text, and the numeric conversion.
- `gateway.dfy` models `makeApiRequest`. Its network reply is a parameter.
- `formatters.dfy` covers the status, creation and list renderings.
- `transcript.dfy` covers the transcript rendering, in both its shapes.
- `dispatcher.dfy` holds the catalog, argument checks, handlers, routing and the answer envelope.

The model follows the code as written in three places where a reader might
expect otherwise:

- A bot is active only in the states `joining` and `joined`. `joined_recording` counts as not active.
- Only five tools exist.
- Removal issues `DELETE /api/v1/bots/{id}` and answers with a fixed sentence. It does not re-render the bot's status.

## Model

| member | source | states |
|---|---|---|
| Strings.Repeat | src/index.ts:137 | `c.repeat(n)` has exactly `n` characters |
| Strings.RepeatChars | src/index.ts:137 | every character of `c.repeat(n)` is `c`, so the divider is 50 dashes |
| Strings.PadStart | src/index.ts:143 | the padded text is `width` long, or keeps its own length when it is already that long |
| Strings.PadStartFill | src/index.ts:143 | a short text gets `width - len` fill characters in front; a text already `width` long is unchanged |
| Strings.PadStartShape | src/index.ts:143 | the padded text ends with the original text, and everything before it is the fill character |
| Strings.IntToDecimal | src/index.ts:143 | `String(n)` of an integer: the digits of `n`, with a leading `-` for negatives |
| Strings.PaddedDecimalReadsBack | src/index.ts:143 | zero-padding a decimal rendering keeps it all digits, and it still reads back as the number |
| Strings.SplitJoin | src/index.ts:104-113 | lines without the separator, once joined, split back into exactly those lines |
| Strings.JoinEndsWith | src/index.ts:104-113 | a join of three or more lines ends with its last two lines, each behind the separator |
| Strings.LeadingNumberOf | src/index.ts:374 | a decimal count followed by a non-digit is read back from the digits that open the text |
| Strings.TrailingNumberOf | src/index.ts:148 | a decimal count written after a non-digit at the very end is read back from the digits that close the text |
| Errors.Message | src/index.ts:86-97 | an upstream-status error and a transport error both reach the caller behind `Network error: ` |
| Errors.ApiStatusMessageReadsBack | src/index.ts:88 | the status and the body can be read back verbatim from `Network error: API error <status>: <body>` |
| JsValues.Get | src/index.ts:101-102 | a property read on an object gives its field or `undefined`; `length` of an array is its size |
| JsValues.Truthy | src/index.ts:349 | `||` keeps a value iff it is truthy: every value is truthy except `undefined`, `null`, `false`, `0` and `""`; nothing nullish is truthy |
| JsValues.ToText | src/index.ts:105-109 | a template literal shows a string as itself and an integer in decimal |
| JsValues.ToNumber | src/index.ts:140 | the dividend of `timestamp_ms / 1000`: an integer stays itself; `undefined` and objects give NaN |
| Gateway.ConfigFromEnv | src/index.ts:43-44 | an unset or empty base URL falls back to `http://localhost:8000`; the key is taken as given |
| Gateway.RequestHeaders | src/index.ts:71-77 | `Content-Type: application/json` is always present; `Authorization: Token <key>` is present iff a non-empty key is configured; there are no other headers |
| Gateway.ApiRequest | src/index.ts:70-84 | the URL is base followed by endpoint; the body is sent iff it is truthy |
| Gateway.ApiResponse | src/index.ts:79-97 | the payload is returned iff the reply has a 2xx status and parses; every failure message starts with `Network error: `; a non-2xx status gives the status error with the reply text |
| Gateway.MakeApiRequest | src/index.ts:65-98 | the headers built in place, the request and the outcome equal the specification functions above |
| Formatters.FormatBotStatus | src/index.ts:100-114 | renders iff the payload is not null or undefined (otherwise the `state` read throws); the text opens with `🤖 Bot Status for ` |
| Formatters.IsActive | src/index.ts:101 | active iff the state is the string `joining` or the string `joined` |
| Formatters.IsTranscriptReady | src/index.ts:102 | ready iff the transcription state is the string `complete` |
| Formatters.StatusLinesSplit | src/index.ts:104-113 | the status text splits back into exactly its eight lines |
| Formatters.ActiveLineFlag | src/index.ts:111 | the activity line reads ✅ "active and recording" iff active, and ❌ "not active" iff not |
| Formatters.ReadyLineFlag | src/index.ts:112 | the transcript line reads ✅ "ready" iff ready, and ⏳ "not ready yet" iff not |
| Formatters.StatusFlagLines | src/index.ts:111-112 | line 7 reads ✅ "active and recording" iff active, ❌ "not active" iff not; line 8 reads ✅ "ready" iff ready, ⏳ "not ready yet" iff not |
| Formatters.StatusClosingLines | src/index.ts:100-113 | for every readable payload, whatever its field texts, the text ends with the bot line and the transcript line; ✅ "active and recording" iff the state is `joining` or `joined`, ✅ "ready" iff the transcription state is `complete` |
| Formatters.StatusReport | src/index.ts:100-113 | eight lines; id, state and transcription lines as shown; active iff state is exactly `joining` or `joined` (so `joined_recording` is not active); ready iff transcription state is exactly `complete` |
| Formatters.FormatBotCreated | src/index.ts:116-127 | renders iff the payload is readable (otherwise the `id` read throws); the text opens with the success line |
| Formatters.CreatedLinesSplit | src/index.ts:117-126 | the creation text splits back into exactly its eight lines |
| Formatters.CreatedClosingHint | src/index.ts:116-127 | for every readable payload, whatever its field texts, the text ends with a blank line and the hint naming the bot id |
| Formatters.CreatedReport | src/index.ts:117-126 | eight lines naming the bot id both on its own line and in the closing hint, with the meeting URL line |
| Formatters.BotsValue | src/index.ts:349 | an array payload is used as is; an object's `bots` is used whenever it is truthy, whatever its type; an object without a truthy `bots` and any other non-null payload give the empty list; a null or undefined payload throws |
| Formatters.Truncate | src/index.ts:366 | `substring(0, 50)`: the URL itself iff it has at most 50 characters, and exactly its first 50 characters otherwise |
| Formatters.BotEntry | src/index.ts:363-367 | an entry renders iff the bot is readable and its `meeting_url` is a string |
| Formatters.BotEntryShape | src/index.ts:366 | an entry opens with its one-based number and the bot id, and ends with the URL cut to 50 characters followed by `...` |
| Formatters.EntryParts | src/index.ts:366 | a listable bot's entry is its numbered id line, then its state and transcription lines, then its meeting line |
| Formatters.EntryStateIcon | src/index.ts:364-366 | the character after `📊 State: <state> ` is ✅ iff the bot's state is exactly `joining` or `joined`, and ❌ iff it is neither |
| Formatters.EntryTranscriptIcon | src/index.ts:365-366 | the character closing the transcription line is ✅ iff the transcription state is exactly `complete`, and ⏳ iff it is anything else |
| Formatters.BotEntries | src/index.ts:362-367 | `map`: it succeeds iff every bot is listable, with one entry per bot |
| Formatters.BotEntriesAt | src/index.ts:362-367 | entry i is bot i's own entry, numbered from the start index plus i: input order is kept |
| Formatters.FirstUnlistableEntry | src/index.ts:362-367 | `map` stops at the first bot whose entry throws, and that entry's error is the outcome |
| Formatters.FirstUnlistableBot | src/index.ts:345-367 | a list with an unlistable bot answers with the error of the first such bot |
| Formatters.FormatBotList | src/index.ts:345-378 | an empty array gives the "no bots" message; any other success opens with the count header; a non-empty array renders iff every bot is listable; a truthy non-array `bots` without a zero `length` throws `bots.map is not a function` |
| Formatters.EmptyListShapes | src/index.ts:349-360 | `[]`, `{bots: []}` and `{}` all give `📋 No active meeting bots found.` |
| Formatters.ListNormalised | src/index.ts:349 | the text depends only on the normalised list |
| Formatters.NonEmptyList | src/index.ts:362-374 | header plus entries joined by blank lines; entry i opens with number i+1 and its bot's id; the digits after `📋 Active Meeting Bots (` in the text read back as the list length |
| Transcript.JsRem | src/index.ts:142 | `%` truncates: the remainder lies strictly between -b and b, and has the dividend's sign |
| Transcript.Minutes | src/index.ts:140-141 | `Math.floor(ms / 1000 / 60)`: the whole minutes m with m·60000 ≤ ms < (m+1)·60000, negative stamps included |
| Transcript.Seconds | src/index.ts:140-142 | `Math.floor(ms / 1000 % 60)` with a truncating `%`: s·1000 ≤ the truncated remainder of ms by 60000 < s·1000 + 1000; s lies in -60..59 and is never negative for ms ≥ 0 |
| Transcript.TimeStr | src/index.ts:143 | a missing or non-numeric stamp renders as `NaN:NaN`; a numeric one is at least five characters long, since each field is padded to two and joined by `:` |
| Transcript.TimestampFields | src/index.ts:140-142 | for ms ≥ 0: minutes = ms div 60000; seconds = (ms div 1000) mod 60, in 0..59; minutes·60 + seconds = ms div 1000 |
| Transcript.TimeStrReadsBack | src/index.ts:141-143 | for ms ≥ 0 the stamp is minutes, `:`, and exactly two seconds digits; both fields read back as the minutes and seconds |
| Transcript.TimeStrExample | src/index.ts:140-143 | 65000 ms renders as `01:05` |
| Transcript.EntryBlock | src/index.ts:139-145 | a block renders iff the entry is readable; otherwise the `timestamp_ms` read throws |
| Transcript.EntryLines | src/index.ts:140-145 | for every readable entry whose speaker and text are one line each, the block splits into exactly `[<stamp>] <speaker>:`, the text, and two empty lines, the stamp being `TimeStr` of `timestamp_ms` |
| Transcript.BlockLines | src/index.ts:145 | a block built from one-line stamp, speaker and text splits into the stamp-and-speaker line, the text and a blank line |
| Transcript.TimeStrUnbroken | src/index.ts:143 | a stamp never holds a line break, whatever the timestamp |
| Transcript.EntryBlockExample | src/index.ts:140-145 | Alice saying "hi" at 65000 ms renders as `[01:05] Alice:\nhi\n\n` |
| Transcript.EntriesText | src/index.ts:139-146 | the blocks render iff every entry is readable; a failure is a runtime type error |
| Transcript.EntriesAppend | src/index.ts:139-146 | the rendering of `a + b` is the rendering of `a` followed by that of `b`, and a failure in `a` wins |
| Transcript.EntryInPlace | src/index.ts:139-146 | entry i's block sits between the blocks of the entries before it and those after it: one block per entry, in input order |
| Transcript.FirstUnreadableEntry | src/index.ts:139-140 | the first null or undefined entry decides the error |
| Transcript.TranscriptArrayText | src/index.ts:131-149 | an empty array gives exactly `❌ No transcript available for bot <id>`; otherwise it renders iff every entry is readable |
| Transcript.ArrayTranscriptShape | src/index.ts:136-149 | header, divider, the entry blocks recoverable from between the dividers, closing divider, and `📊 Total entries: n`; the digits that close the text read back as the array length |
| Transcript.FormatTranscriptArray | src/index.ts:131-150 | the `+=` loop computes exactly the array rendering, first error included |
| Transcript.LegacyTranscript | src/index.ts:153-169 | renders iff the payload is readable (otherwise the `ready` read throws) |
| Transcript.PendingLines | src/index.ts:161-168 | a readable payload that is not ready (for one-line id and state) splits into exactly four lines: `<icon> Transcript not ready for bot <id>`, `Current transcription state: <state>`, a blank line, and the hint |
| Transcript.PendingIcon | src/index.ts:162 | 🔄 iff the transcription state is exactly `in_progress`, ⏳ otherwise |
| Transcript.LegacyReady | src/index.ts:153-160 | with `ready` and `transcript` truthy, the transcript text sits between the header-and-divider and a closing divider |
| Transcript.LegacyFirstChar | src/index.ts:153-169 | the text opens with 📝 iff ready, 🔄 iff not ready and the state is `in_progress`, ⏳ otherwise |
| Transcript.TranscriptText | src/index.ts:129-170 | an array renders iff all its entries are readable, another payload iff it is readable; every failure is a runtime type error |
| Transcript.FormatTranscriptResponse | src/index.ts:129-170 | the method computes exactly the specified transcript text |
| Dispatcher.Route | src/index.ts:252-270 | a routed name is the routed tool's own name |
| Dispatcher.RouteName | src/index.ts:252-266 | every tool is routed from its own name |
| Dispatcher.CatalogMatchesRoutes | src/index.ts:173-266 | the catalog has five distinct names; each tool's entry carries its name, which routes back to that tool; every catalog entry is routed |
| Dispatcher.CatalogRequired | src/index.ts:178-243 | each entry requires exactly the argument its handler checks and declares it first; the list tool requires and declares nothing |
| Dispatcher.RequireString | src/index.ts:285-290 | accepted iff the argument is present, a string and non-empty; otherwise the parameter error names it |
| Dispatcher.BotName | src/index.ts:286 | a truthy `bot_name` is passed on unchanged; otherwise the name is `Claude Bot` |
| Dispatcher.Fetch | src/index.ts:292-304 | exactly one request is issued; a gateway failure is passed on, otherwise the payload is formatted |
| Dispatcher.Handle | src/index.ts:284-397 | a missing required argument fails with its parameter error before any request |
| Dispatcher.EnvelopeOf | src/index.ts:271-280 | one block; a success shows the handler's text unchanged, a failure `❌ Error: ` followed by its message |
| Dispatcher.Dispatch | src/index.ts:248-281 | exactly one text block; an unknown name answers `❌ Error: Unknown tool: <name>` and issues no request; a known name answers with its handler's outcome in the envelope, and with its request |
| Dispatcher.AbsentArguments | src/index.ts:250 | a call without arguments is handled as one with `{}` |
| Dispatcher.MissingParameter | src/index.ts:308-312 | a missing, empty or non-string required argument answers the parameter error and issues no request |
| Dispatcher.RequestIssued | src/index.ts:292-387 | with valid arguments each tool issues one request on its route (POST, GET, GET, GET, DELETE); only creation sends a body, with the URL and the bot name |
| Dispatcher.DefaultName | src/index.ts:286-295 | without a truthy `bot_name` the created bot is named `Claude Bot` |
| Dispatcher.ReplyRendered | src/index.ts:292-396 | with valid arguments and a good reply, each tool answers with its own rendering of the payload: creation, status, transcript (for the bot id) and list formatters, and the fixed `✅ Successfully removed bot <id> from the meeting.` |
| Dispatcher.HandlerFailureSurfaces | src/index.ts:248-281 | whatever a known tool's handler throws, a formatter's runtime error included, answers `❌ Error: ` followed by its message, with the request it issued |
| Dispatcher.NullStatusPayload | src/index.ts:100-101 | a status reply that parses to `null` answers `❌ Error: Cannot read properties of null (reading 'state')` |
| Dispatcher.GatewayFailurePassedOn | src/index.ts:292-387 | with valid arguments, a gateway failure is the handler's failure and the request was issued |
| Dispatcher.UpstreamStatusSurfaces | src/index.ts:86-94 | a non-2xx status answers `❌ Error: Network error: API error <status>: <body>`, and status and body read back from it |
| Dispatcher.TransportFailureSurfaces | src/index.ts:92-95 | a transport failure answers `❌ Error: Network error: <cause>` |
| Dispatcher.ErrorMarkerIffFailure | src/index.ts:248-281 | the answer opens with `❌ Error: ` iff the routing or the handler failed: errors are never re-thrown, and no success looks like one |
| Dispatcher.SuccessUnmarked | src/index.ts:297-396 | no successful handler text starts with `❌ Error: ` |
| Dispatcher.TranscriptUnmarked | src/index.ts:129-170 | no successful transcript text starts with `❌ Error: `, not even the "no transcript" message |

## Left out

- MCP SDK wiring is not modelled: the server object, the stdio transport, handler registration, `run()` and process start-up. The handlers are plain functions.
- The network call and JSON parsing are not modelled. Their outcome is the `Upstream` parameter: a status, the reply text and the parse result, or a transport failure.
- The environment variables are not read. `ConfigFromEnv` takes their values as parameters.
- Numbers are integers, so floating-point arithmetic is not modelled.
  - Non-integral timestamps are outside the model.
  - Very large numbers, which `toString` prints in exponent notation, are outside the model.
  - Float rounding of `ms / 1000 / 60` is outside the model.
- JsValues.ToNumber: `Number(s)` is modelled only for the empty string and plain digit strings. Strings with signs, spaces, decimals or exponents give NaN here.
- Strings.PadStart takes one fill character. `padStart` also accepts a longer fill string, but this layer only pads with `'0'`.
- Formatters.Truncate counts Unicode scalar values, while `substring` counts UTF-16 code units. They differ only for URLs with characters outside the Basic Multilingual Plane.
- The catalog's `default: "Go Bot"` schema metadata is not modelled. It is descriptive only. The handler's own default is `Claude Bot`, and that is modelled.
- The `String(error)` branch of the call handler's catch is not modelled. Every failure in this layer is an `Error` object.
- Error-object kinds are not distinguished. A runtime `TypeError` is modelled by its message only.
- JsValues.ToText and JsValues.ToNumber: an upstream object is converted as plain data. In the source, an object with its own `toString` key cannot be converted to a primitive, so a template literal or the division throws `Cannot convert object to primitive value`. Here such an object renders as `[object Object]`, or gives NaN.
- JsValues.Get does not model prototype lookups. The keys this layer reads are never inherited.
- The request body is kept as a value, not as JSON text.
- The test and example scripts are not part of this model. They make live calls or print usage text.
