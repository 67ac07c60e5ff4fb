# Visitor tracking of the animation-gallery worker, in Dafny

The worker answers every request in three steps. It reads the client IP and the user agent from
two headers, defaulting each to `unknown`. It derives a visitor fingerprint from them. It then
records the visit in a key-value namespace (`VISITORS`) before routing on the path. Routing
serves one of nine pages, serves a JSON summary of the namespace at `/api/stats`, or answers 404.

This project models that core as pure functions over an immutable store:

- `Kv`: the namespace is a `map<string, string>`, since the key-value store keeps text. An
  unbound namespace is `None`. The module also holds the key names, `visitor:<fp>`,
  `total_visitors` and `total_visits`.
- `Tracker`: `trackVisitor` as one transition.
  - On a first sighting it writes a fresh record, then `total_visitors`, then `total_visits`.
  - On a repeat sighting it writes the record with its count raised and `last` set, then
    `total_visits`.
  - A stored record that is not valid JSON makes the call throw.
- `Counters`: how a counter is written back and how `getStats` reads it with `parseInt`.
- `Statistics`: `getStats`. It returns both counters and the first ten listed visitor records,
  each cut to `{ip, ua (first 50 characters), count}`.
- `Fingerprint`, `Hex`: the fingerprint is the first 16 lower-case hexadecimal characters of the
  SHA-256 digest of the UTF-8 text `ip + "-" + ua`.
- `Router`: `fetch`, that is header defaults, tracking, then path dispatch.
- `RecordJson`: `JSON.stringify` and `JSON.parse` for the record shape the tracker writes, with
  the round trip proved.
- `JsNumber`, `JsString`, `Digits`: `parseInt`, `String(n)` and `substring`, as JavaScript defines
  them, for the inputs that occur here.
- `History`: any sequence of tracked requests replayed from an empty namespace.
- `Scenarios`: concrete request sequences, end to end through `fetch`.

The counter update is a parameter of `Track`, of type `CounterStep`, so that the program's own
step and the intended one can be compared. `TrackVisitor` is `Track` with the program's step
`Concatenated`. The corrected step is `Incremented` (see Findings). The `Tracker` properties and the
`History` properties other than two are stated for an arbitrary step, so they hold for both. The two
exceptions are `History.NumericReplayCounts`, stated for `Incremented`, and
`History.AsWrittenReplayOvercounts`, stated for `Concatenated`.

What `worker.js` stores and reports:

- A record has exactly the members `ip`, `ua`, `first` and `count`, and from the second visit on
  also `last`.
- The counters are the keys `total_visitors` and `total_visits`.
- Every distinct fingerprint gets its own record, even when two fingerprints share an IP.
- A stats entry is `{ip, ua.substring(0, 50), count}`. `getStats` lists the entries in listing
  order and keeps the first ten. It does not merge entries that share an IP.

## Model

| member | source | states |
|---|---|---|
| Tracker.Track | worker.js:42-59 | With no namespace bound nothing is written. The call throws exactly when a record text is present and is not a record, and the error names the visitor key. Otherwise only `visitor:<fp>`, `total_visitors` and `total_visits` can change; every other key keeps its value. |
| Tracker.TrackVisitor | worker.js:42-59 | The program's tracker: on a first sighting `total_visitors` is written with the program's own `(get \|\| 0) + 1` step. |
| Tracker.FirstSighting | worker.js:45-50 | On a first sighting the record parses back as `{ip, ua, first: now, count: 1}` with no `last`, both counters are advanced once, and the keys gained are exactly `visitor:<fp>`, `total_visitors` and `total_visits`. |
| Tracker.RepeatSighting | worker.js:51-58 | On a repeat sighting the count goes up by exactly one and `last` becomes `now`, while `ip`, `ua` and `first` are kept. `total_visitors` is untouched and `total_visits` advances once. |
| Tracker.TrackCounters | worker.js:48-58 | Any successful call advances `total_visits` once, and advances `total_visitors` once exactly when the fingerprint had not been seen. |
| Tracker.Unwritten | worker.js:42-59 | A key other than the three written ones is present after the call exactly when it was present before, with the same value. |
| Tracker.TrackPreservesRecords | worker.js:46-55 | If every visitor key holds a record, the call cannot throw, and every visitor key still holds a record afterwards. |
| Tracker.SeenTwice | worker.js:45-55 | Two sightings of a new fingerprint leave a record with the first time, count 2, and the second time as `last`. |
| Counters.TextOrZero | worker.js:64-65 | `get(k) \|\| '0'`: null and the empty text become "0", and any other text is kept. |
| Counters.ReadCounter | worker.js:64-65 | An absent or empty counter reads as 0. |
| Counters.AsWrittenRepunit | worker.js:58-65 | Under the program's step, n updates of an absent counter leave the text of n ones, which `parseInt` reads as 11…1 (n digits). That number is at most `Number.MAX_SAFE_INTEGER` exactly when n ≤ 16. |
| Counters.RepunitSafe | worker.js:64-65 | The n-digit repunit is at most 2^53 − 1 exactly when n ≤ 16, so beyond 16 requests a JavaScript number no longer holds the count's text exactly. |
| Counters.AsWrittenTwoIncrementsReadEleven | worker.js:58-65 | Two updates leave the text "11", which reads as 11. |
| Counters.Concatenated | worker.js:50-58 | The program's `(get \|\| 0) + 1` step: an absent or empty counter becomes "1", and any other text gets one more character, a trailing "1", with the old text as its prefix. |
| Counters.AsWrittenOvercounts | worker.js:50-58 | From two updates on, the program's counter reads more than the number of updates. |
| Counters.NumericAddsOne | worker.js:50-58 | Under the corrected step a counter that reads k reads k + 1 afterwards, and a counter that reads NaN still reads NaN. |
| Counters.NumericCounts | worker.js:50-58 | Under the corrected step, n updates of an absent counter read exactly n. |
| History.ReplayFromEmpty | worker.js:42-59 | Any sequence of requests from an empty namespace is tracked without throwing. Afterwards there is one record per distinct fingerprint, each counting that fingerprint's requests. The counters have been advanced once per distinct fingerprint and once per request. |
| History.SummaryStep | worker.js:42-59 | One more request keeps that summary. |
| History.StepOwnRecord | worker.js:45-55 | The request's own record is created with count 1, or has its count raised to the number of requests carrying its fingerprint. |
| History.OtherFingerprint | worker.js:42-59 | Tracking one fingerprint leaves every other fingerprint's record as it was. |
| History.NumericReplayCounts | worker.js:50-58 | With the corrected step, after any sequence of requests the counters read the number of distinct fingerprints and the number of requests. |
| History.AsWrittenReplayOvercounts | worker.js:58-65 | With the program's step, after n ≥ 2 requests `visits` reads 11…1 (n digits), which is more than n. That value is a safe JavaScript integer exactly when n ≤ 16. |
| History.FingerprintsExist | worker.js:45-50 | A fingerprint is among those counted by `total_visitors` exactly when some tracked request carried it. |
| Statistics.GetStats | worker.js:61-77 | With no namespace the result is zeros and no entries. Otherwise the call succeeds exactly when the walk over the listing succeeds; `visitors` and `visits` are what `parseInt` makes of the counters; the entries are a prefix of the walk's entries and number at most ten. |
| Statistics.StatsEntries | worker.js:67-76 | The entries are the first min(10, \|visitor keys\|) listed visitor keys, in listing order. Each entry's ip and count are copied from the record, and its ua is the record's ua cut to its first min(50, \|ua\|) characters. |
| Statistics.Collect | worker.js:68-74 | The `for` loop over the listing: when it succeeds it yields one entry per listed visitor key. When it throws, the failing key is a listed visitor key. |
| Statistics.CollectSpec | worker.js:68-74 | The walk succeeds exactly when every listed visitor key holds a record. It then yields one projected entry per listed visitor key, in order. |
| Statistics.CollectFirstFailure | worker.js:69-71 | When the walk throws, the error is that of the first listed visitor key that does not load. |
| Statistics.CollectLoop | worker.js:68-74 | The loop as written computes the same result as the walk, including the early throw. |
| Statistics.StatsNeverThrow | worker.js:61-77 | If every visitor key holds a record and the listing names only present keys, `getStats` does not throw. |
| Statistics.VisitorKeys | worker.js:70 | A key is kept exactly when it is listed and starts with `visitor:`. |
| Statistics.VisitorKeysAppend | worker.js:69-70 | Selecting visitor keys keeps the relative order of the listing. |
| Statistics.Project | worker.js:72 | The entry keeps the record's ip and count, and its ua is the prefix of length min(50, \|ua\|). |
| Statistics.Lookup | worker.js:71 | Loading succeeds exactly when the key is present and its text is a record, and then yields that record. |
| Fingerprint.GenerateFingerprint | worker.js:33-40 | The fingerprint has 16 characters, all in `0-9a-f`. It is the hexadecimal rendering of the first 8 digest bytes of the UTF-8 text `ip-ua`, and reading it back gives those 8 bytes. |
| Fingerprint.SeparatorAmbiguity | worker.js:34 | Moving a hyphen between ip and user agent does not change the fingerprint. |
| Fingerprint.Utf8Char | worker.js:35-36 | A character below U+0080 is its own single byte. Otherwise the length follows the code point's range: two bytes below U+0800, three below U+10000, four above. The lead byte lies in 0xC0–0xDF, 0xE0–0xEF or 0xF0–0xF4 accordingly, and every continuation byte lies in 0x80–0xBF. |
| Fingerprint.Utf8 | worker.js:35-36 | Each character becomes 1 to 4 bytes. |
| Fingerprint.Utf8CharDecodes | worker.js:35-36 | An encoded character's lead byte announces its length, and its bits give back the code point. |
| Fingerprint.Utf8RoundTrip | worker.js:35-36 | Decoding the UTF-8 bytes of a string gives back exactly its code points. |
| Fingerprint.Utf8Injective | worker.js:33-36 | Different texts `ip-ua` are hashed as different byte sequences. |
| Hex.PadStart | worker.js:39 | `padStart(len, fill)` keeps the text as its suffix, and the result has length max(len, \|s\|) with `fill` in every position before the text. |
| Hex.ByteHex | worker.js:39 | `b.toString(16).padStart(2, '0')` is the high-nibble digit followed by the low-nibble digit. |
| Hex.HexJoin | worker.js:39 | `map(...).join('')`: two characters per byte, and characters 2i and 2i+1 are the high-nibble and low-nibble digits of byte i. |
| Hex.UnhexHexJoin | worker.js:39 | The joined rendering loses nothing: reading it back gives the bytes. |
| Hex.HexJoinLowerHex | worker.js:39 | The joined rendering uses only `0-9a-f`. |
| Hex.HexJoinPrefix | worker.js:39 | The first 2k characters of the rendering are the rendering of the first k bytes. |
| Hex.ToString16 | worker.js:39 | `toString(16)` of a byte has lower-case hexadecimal digits whose value is the byte. It has one digit exactly when the byte is below 16, and two otherwise. |
| RecordJson.Stringify | worker.js:49-55 | The text written for a record is a JSON object: it is non-empty and starts with `{`. |
| RecordJson.Parse | worker.js:52 | `JSON.parse` of a stored record text, also used at worker.js:71: a text accepted as a record opens with its `ip` member, `{"ip":`. |
| RecordJson.ParseStringify | worker.js:49-55 | The record text the tracker writes parses back to the same record, with or without `last`. |
| RecordJson.QuoteRoundTrip | worker.js:49-52 | A JSON string literal produced for any text parses back to that text, leaving what follows untouched. |
| RecordJson.ParseNonEmpty | worker.js:48-52 | A text that is a record is never empty, so it is never falsy. |
| JsNumber.ParseIntToString | worker.js:64-65 | `parseInt(String(k))` is k for every integer k. |
| JsNumber.ParseIntDigits | worker.js:64-65 | A text of decimal digits parses to its positional value. |
| JsNumber.ParseInt | worker.js:64-65 | The result is NaN exactly when no digit follows the white space, sign and radix prefix. |
| JsString.JsSubstring | worker.js:72 | `substring(0, n)` has length min(n, \|s\|) and is a prefix of s. |
| Kv.Truthy | worker.js:48 | JavaScript truthiness of a `get` result: null and the empty text are falsy, and every other text is truthy. |
| Kv.VisitorKey | worker.js:45 | The record key starts with `visitor:`, is followed by the fingerprint, and is neither counter key. |
| Router.RouteOf | worker.js:15-29 | A path routes to a page exactly when it is that page's path, to the stats route exactly when it is `/api/stats`, and to 404 otherwise. |
| Router.RoutePagePath | worker.js:15-23 | Every page is reached by its own path. |
| Router.HeaderOr | worker.js:7-8 | A missing or empty header reads as `unknown`, and any other value is kept. |
| Router.Fetch | worker.js:7-29 | A request whose tracking throws ends with that error and leaves the namespace unchanged. Otherwise the namespace is as tracking left it. A page path gives that page, `/api/stats` gives the statistics of the namespace after tracking, and any other path gives 404. |
| Router.TrackingIgnoresPath | worker.js:9-12 | The path plays no part in tracking, so a 404 counts as a visit like a page does. |
| Router.UnboundNamespace | worker.js:43-62 | Without a namespace nothing is stored, and the statistics are zero with no entries. |
| Scenarios.TwoRequests | worker.js:42-59 | Two requests by one visitor on a fresh namespace leave one record with count 2, `total_visitors` "1" and `total_visits` "11". |
| Scenarios.PageThenStats | worker.js:7-77 | Loading `/` and then `/api/stats` on a fresh namespace shows one visitor, entries with the visitor's ip, ua and count 2, and `visits` 11 although two requests were made. |

## Left out

- The HTML pages and their scripts (worker.js:79-905), and the text rewriting of the cube pages (worker.js:907-913), are presentation; a page is a tag.
- Response headers, status codes other than 404, and the serialisation of the stats object are not modelled. The stats JSON is the `Stats` value.
- SHA-256 (`crypto.subtle.digest`, FIPS 180-4) is the parameter `sha256`; it returns 32 bytes.
- `Date.now()` is the parameter `now`. The two calls sit in different branches (worker.js:49 and worker.js:54), so one `trackVisitor` reads the clock once.
- `list()` is the parameter `list`, or a key sequence given to `GetStats`. Its order and its pagination after 1000 keys are platform behaviour.
- Concurrent requests and lost updates between the read and the write of a key are not modelled; calls are sequential.
- The store keeps the number 1 written by `(null || 0) + 1` as the text "1". This is an assumption about the key-value store's text conversion.
- Tracker.Track: every `get` and `put` on the store is modelled as succeeding. A store call that fails (a network error, a refused write) makes `trackVisitor` and so `fetch` throw. It can do so after the record's `put` has landed, leaving some keys written and others not; that outcome is not represented. The only throw modelled is a record text that is not JSON.
- RecordJson.Parse: it accepts only the canonical text the tracker writes, with members in this order, no white space, and no fractions, exponents or negative numbers. Other JSON texts are treated as not records, although `JSON.parse` would accept some of them.
- Fingerprint.Utf8: it works on Unicode scalar values, so lone UTF-16 surrogates (which `TextEncoder` replaces with U+FFFD) do not occur.
- JsString.JsSubstring: it counts characters, not UTF-16 code units, so a user agent with characters above U+FFFF is cut at a different place than `substring(0, 50)` cuts it.
- JsNumber.ParseInt: integers are unbounded, so the rounding of results above 2^53 − 1 to the nearest double, and Infinity beyond the largest double, are not modelled; `String(n)` never uses exponent notation here.
- Counters.AsWrittenRepunit: its exact value `Int(Repunit(n))` is what JavaScript computes only for n ≤ 16, as `Counters.RepunitSafe` states. From 17 requests on `parseInt` returns a rounded number (for 17 ones, 11111111111111112). From about 310 requests it returns Infinity, which `JSON.stringify` writes as `null` in `/api/stats`.
- History.AsWrittenReplayOvercounts: the same limit applies; `visits` reads exactly the repunit in JavaScript only for up to 16 requests.

## Findings

| source | as written | input that shows it | evidently intended | confidence | as-written member | corrected member |
|---|---|---|---|---|---|---|
| worker.js:50-58 | `((await get(k)) \|\| 0) + 1` adds 1 to the text the store returns, which concatenates: "1" becomes "11", then "111". | Two requests by one visitor on a fresh namespace: `total_visits` holds "11" and `/api/stats` reports `visits: 11`. | Numeric increment: `parseInt(get(k) \|\| '0') + 1`, so n requests read n. | high — not executed | Counters.AsWrittenOvercounts, Scenarios.PageThenStats | Counters.NumericCounts, History.NumericReplayCounts |
