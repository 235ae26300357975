# Clicksy worker, modelled in Dafny

Clicksy is a link shortener that runs as a Cloudflare Worker (`worker.js`). Three kinds of
request reach its default `fetch` handler:

- `GET /{slug}` redirects.
  - It applies a per-address rate limit using a counter in the key-value namespace `CLICKSY`.
  - It looks the slug up in the same namespace.
  - It classifies the click: device, browser, OS, traffic source, and good / bad / suspicious.
  - It appends one row to the `analytics` table and upserts one row of `live_sessions`.
  - It answers 301 with the URL parser's serialisation of the stored destination as `Location`, or throws when `Response.redirect` cannot parse that destination.
- `GET /stats` resolves a time window, an optional referrer-domain filter and a row limit
  from the query string. It then returns the `analytics` rows in that window, grouped by
  referrer domain, largest group first.
- `GET /live` is handed to the `LiveAnalytics` durable object. That object keeps the set of
  open WebSocket server ends and can broadcast a click summary to all of them.

The modules follow that structure:

| file | module | contents |
|---|---|---|
| `wrappers.dfy` | `Wrappers` | `Option` |
| `js_number.dfy` | `JsNumber` | ECMAScript `parseInt` without a radix, `x \|\| d`, integer-to-string, the "null" of a template literal |
| `signatures.dfy` | `Signatures` | a case-insensitive regex alternation of ASCII words: `test` and `exec` with the leftmost match |
| `classifier.dfy` | `Classifier` | `parseUserAgent`, `detectSource`, the bot rule and the click type |
| `events.dfy` | `Events` | the rows of `analytics` and `live_sessions` |
| `stats.dfy` | `Stats` | `handleStats`: parameter resolution and the SQL query as functions |
| `worker.dfy` | `Worker` | the default `fetch`: the state it touches (class `Env`), the specifications `Step` and `RedirectStep`, the imperative `Fetch` and `Redirect`, and the lemmas about a request |
| `live.dfy` | `Live` | class `LiveAnalytics` with its `clients` set, `fetch`, the close listener and `broadcast` |

`Worker.Fetch` routes a request, and `Worker.Redirect` carries out the redirect path step
by step on the fields of an `Env`. Their contracts say that the response and the new state
are exactly what the functions `Worker.Step` and `Worker.RedirectStep` give. The properties
of a request are proved as lemmas about those two functions.

Everything the code asks of its environment is a parameter:
- the clock readings (`Clock`), one field for each reading the model uses: five on the
  redirect path and one (`statsNow`) for all of `handleStats`;
- the random part of the session identifier;
- the URL parser, as two functions that return `None` where `new URL` throws: `hostname`, the host name (applied to the referrer), and `href`, the serialisation of the whole URL (applied to the destination).

## Where the documented behaviour and the code differ

In each case the model follows the code.

- The documented rate limit refuses the 101st request within the hour. The code refuses a
  request only when the stored count before the increment is above 100 (worker.js:63).
  So 101 requests are admitted and the 102nd is refused (`Worker.BurstFromZero`).
- The documentation treats an unparseable referrer as source `other`. The code calls
  `new URL(referrer)` at worker.js:79 without a `try`. The handler then throws after the
  counter has already been written, and no row is recorded (`Worker.RedirectRecords`, outcome
  `Thrown`). `Classifier.DetectSource` returns `None` for such a referrer.
- The documentation says analytics write failures are swallowed. The code has no
  `try`/`catch` around the database writes.
- The redirect's broadcast (worker.js:101-104) posts a request without an `Upgrade` header
  to the `LIVE_ANALYTICS` binding. The worker's binding configuration is not part of this
  model, and a durable-object namespace is normally reached through `get(id)` rather than
  called directly. The model assumes the binding forwards to `LiveAnalytics.fetch`. Under
  that assumption the post answers 426 (worker.js:27-28; `Live.LiveAnalytics.Fetch`), so
  `broadcast` is never reached from the redirect path and no click reaches an observer.

## Model

| member | source | states |
|---|---|---|
| Signatures.Test | worker.js:3 | `re.test(ua)` is true exactly when some alternative occurs in `ua`, ignoring ASCII case |
| Signatures.Exec | worker.js:4-5 | the match found starts at the leftmost position where any alternative matches, and at that position it is the first listed alternative that matches; none is found exactly when no alternative occurs |
| Signatures.MatchedText | worker.js:4-5 | `exec(ua)?.[0]` is the text of the leftmost match, or absent exactly when nothing matches |
| Signatures.LeftmostUnique | worker.js:4-5 | the leftmost match is unique |
| Classifier.DeviceOf | worker.js:3 | Tablet exactly when "Tablet" or "iPad" occurs; Mobile exactly when "Mobile", "iPhone" or "Android" occurs and neither tablet word does; Desktop exactly when none of the five occurs |
| Classifier.SignatureOrUnknown | worker.js:4-5 | "Unknown" exactly when no signature occurs; otherwise the text of the leftmost, first-listed match |
| Classifier.BrowserOf | worker.js:4 | "Unknown" exactly when no browser signature occurs; otherwise the leftmost matching browser signature as written in the user agent |
| Classifier.OsOf | worker.js:5 | "Unknown" exactly when no OS signature occurs; otherwise the leftmost matching OS signature as written in the user agent |
| Classifier.IsBot | worker.js:80 | true exactly when "bot", "crawl" or "spider" occurs |
| Classifier.ClickTypeOf | worker.js:80-81 | a bot is always bad, whatever the count; otherwise suspicious exactly when the pre-increment count is above 50, else good |
| Classifier.DetectSource | worker.js:10-16 | direct exactly for the empty or "Direct" referrer; no result exactly when `new URL(referrer)` throws; search, social and other each exactly when the host matches the search words, matches the social words but not the search words, or matches neither |
| JsNumber.TrimStart | worker.js:62 | removes exactly the leading white space: the result is a suffix, the removed prefix is all white space, and the result does not start with white space |
| JsNumber.ParseInt | worker.js:62 | NaN exactly when no digit of the selected radix follows the optional sign and hex prefix |
| JsNumber.ParseIntOr | worker.js:62 | `parseInt(v) \|\| d`: a missing value, a NaN parse and a parse of 0 give `d`; any other parse is kept; so a result of 0 happens only when `d` is 0 |
| JsNumber.NullIsNaN | worker.js:60-62 | `parseInt` of the text "null" is NaN |
| JsNumber.DecimalRoundTrip | worker.js:62-66 | `parseInt` reads back every integer written in decimal |
| JsNumber.StoredCountReadsBack | worker.js:62-66 | a stored count `c` reads back as `c` through `parseInt(...) \|\| 0` |
| Stats.SearchParam | worker.js:112-114 | `searchParams.get(name)` is the value of the first pair with that name, absent exactly when no pair has the name |
| Stats.Cutoff | worker.js:113-121 | "1h", "7d" and "30d" subtract their window from now; a missing, "24h" or unknown value subtracts a day; when now equals the window the lookup gives 0 (falsy) and the cutoff falls back to a day; the cutoff is always one of the four |
| Stats.LimitOf | worker.js:114 | a missing, unparseable or zero limit is 100; any other value is the parsed integer; the limit is never 0 |
| Stats.DomainFilter | worker.js:140-143 | a filter applies exactly when the `domain` parameter is present and non-empty, and then it is that value |
| Stats.InWindow | worker.js:137-143 | an event is kept exactly when its timestamp is at or after the cutoff and, with a filter, its referrer domain is the filter |
| Stats.Domains | worker.js:144 | the group keys: each domain of the events exactly once |
| Stats.Summarise | worker.js:124-135 | the row's domain is the group's; `total_clicks` is the group size; good, bad and suspicious each count the positions of the group with that click type, and add up to the total; the response-time sum (`AVG(response_time)` times the total) is the sum over the group; unique visitors and sessions are the numbers of distinct non-null addresses and distinct session identifiers, each at most the total; countries, devices and sources are the sets of the group's values |
| Stats.RowFor | worker.js:124-144 | the same columns counted over the domain's events in the whole sequence: the total is the number of positions with that referrer domain, each disposition the number with that domain and click type, the response-time sum masks out other domains, the distinct counts and the three sets range over that domain's events; a domain with events has at least one click |
| Stats.Grouped | worker.js:144 | one row per group key, in key order |
| Stats.SortByTotal | worker.js:144 | `ORDER BY total_clicks DESC` is a permutation of the rows and non-increasing in total |
| Stats.Truncate | worker.js:144-145 | `LIMIT` keeps a prefix of length `limit`, or every row when the limit is negative or at least the row count |
| Stats.GroupedRows | worker.js:144 | grouping yields no duplicate rows, and a row is present exactly when it is the row of a domain that has events |
| Stats.AggregateRowsAreSummaries | worker.js:123-145 | every returned row is the summary of its domain's events in the window, with at least one click, counts that add up, and visitor and session counts at most the total |
| Stats.AggregateOrderAndLimit | worker.js:144-145 | rows are non-increasing in total, at most `limit` when the limit is not negative, with no domain twice, and every domain of the window is present when fewer than `limit` rows come back |
| Stats.FilteredToOneDomain | worker.js:140-143 | with a domain filter the result is empty or the single row of that domain |
| Stats.GroupedPerm | worker.js:123-144 | reordering the events reorders the groups and leaves each domain's row unchanged |
| Stats.SortedSameTotals | worker.js:144 | two sorted orderings of the same rows agree on the total at every position |
| Stats.AggregateTotalsOrderIndependent | worker.js:123-147 | two orderings of the same events give the same number of rows with the same totals position by position |
| Stats.AggregateRowsOrderIndependent | worker.js:123-147 | every row returned for one ordering is the row of its domain for any other ordering, so only the placement of tied rows can differ |
| Stats.ThreeClickExample | worker.js:123-145 | two clicks on "a" (good, bad) and one good click on "b" give row "a" (2 total, 1 good, 1 bad) followed by row "b" (1 total, 1 good) |
| Worker.RateKeyShared | worker.js:60-61 | two requests share a rate counter exactly when their addresses print alike in `` `rate:${ip}` ``, so a request without CF-Connecting-IP shares the counter of the address "null" |
| Worker.HeaderOr | worker.js:75-78 | `get(name) \|\| fallback`: a missing or empty header gives the fallback, any other value is kept |
| Worker.RateCount | worker.js:60-62 | an address with no counter, or with a counter that does not parse, has count 0; otherwise the count is the integer its counter's text starts with |
| Worker.Track | worker.js:75-98 | no rows exactly when the referrer's URL cannot be parsed; otherwise every column of the event is its source: the slug, destination, referrer and User-Agent with their fallbacks, `ref_domain` ("Direct" for a missing or empty Referer, else the referrer's host name), the source type of `detectSource`, the device, browser and OS of `parseUserAgent`, the address, country, city, query string, the session identifier built from address, stamp and random part, the timestamp, the response time as finish minus start, the pre-increment count and its click type; the session row carries the event's session id, address, slug and last-active time |
| Worker.Slug | worker.js:54 | the slug is the path without its leading character, and "" for an empty path |
| Worker.Increment | worker.js:66 | the counter write adds or replaces only the address's counter key, with a one-hour expiry, and its text parses back as the count plus one; every other key is unchanged |
| Worker.StepRoutes | worker.js:54-57 | "stats" and "live" change nothing in the store and give neither a redirect nor a 429; "live" is handed to the live object; every other slug takes the redirect path |
| Worker.IncrementReadsBack | worker.js:62-66 | the counter written for a count reads back as that count plus one |
| Worker.RedirectCases | worker.js:59-106 | the redirect path has five outcomes: 429 with the store unchanged; 404 after the counter write; a throw after the counter write for an unparseable referrer; a throw after both rows are written for an unparseable destination; otherwise a 301 whose location is the parser's serialisation of the destination, after both rows are written |
| Worker.RedirectRateLimit | worker.js:59-66 | 429 exactly when the stored count is above 100, and then nothing changes; otherwise the counter is rewritten once with a one-hour expiry and reads back one higher, at most 101 |
| Worker.RedirectNotFound | worker.js:68-72 | 404 exactly when the request was admitted and the slug maps to nothing or to "" after the counter write; a 404 records no event and no session |
| Worker.RedirectRecords | worker.js:74-106 | the event table grows by exactly one row when an admitted request to a mapped slug has a referrer `new URL` can parse, and is otherwise unchanged; sessions change only then; the answer is a redirect exactly when such a request's destination also parses; the handler throws exactly when an admitted, mapped request has an unparseable referrer or destination |
| Worker.RedirectTracks | worker.js:75-106 | a click that wrote a row records exactly the event `Track` builds for the slug, its stored destination and the pre-increment count: that count's click type, the referrer's domain and source type, the User-Agent's device, browser and OS, the address, timestamp and session identifier, and "Direct" for a missing or empty Referer; the session row of that event is upserted with the last-active time; it is a redirect exactly when the destination parses, and the location is then the parser's serialisation of the recorded destination (the row keeps the stored text) |
| Worker.Fetch | worker.js:51-57 | the response and the new state of the bindings are exactly those of `Step` on the old state |
| Worker.Redirect | worker.js:59-106 | the response and the new state of the bindings are exactly those of `RedirectStep` on the old state, including the throw after both rows are written for an unparseable destination |
| Worker.BurstFromZero | worker.js:62-66 | starting from no counter, repeated requests from one address are admitted while the count is at most 100, so 101 are admitted and the 102nd is refused |
| Worker.CounterExpiry | worker.js:62-66 | once the counter has expired from the namespace, the next request is admitted and its counter reads 1 |
| Live.LiveAnalytics.constructor | worker.js:20-23 | a new object has no clients |
| Live.LiveAnalytics.Fetch | worker.js:25-40 | anything but `Upgrade: websocket` gets 426 "Expected WebSocket" with the clients unchanged; an upgrade returns a fresh client end and adds exactly the fresh, accepted server end |
| Live.LiveAnalytics.OnClose | worker.js:38 | closing removes exactly that socket |
| Live.LiveAnalytics.Broadcast | worker.js:42-47 | every registered socket is sent the summary exactly once; the set and the other sockets are unchanged; with no clients nothing is sent |

## Left out

- `frontend/` is not part of this model. It is browser UI code: the DOM, charts, reconnect timers and CSV download.
- Platform objects are replaced by values.
  - KV `get`/`put`, D1 `prepare`/`bind`/`run`/`all`, Durable Object stubs, `Request`/`Response` and `WebSocketPair` become maps, sequences and small datatypes.
  - Response headers are not modelled, apart from the redirect's `Location` (`Worker.Response.Moved`). This includes `Cache-Control` and `Content-Type`.
  - The `cacheTtl` of the slug lookup (worker.js:69) is not modelled. The model reads its own write.
- KV expiry is not modelled as time passing. The TTL given to `put` is recorded (`KvEntry.expirationTtl`), and `Worker.CounterExpiry` states what happens once the namespace has dropped the key.
- Concurrency is not modelled. Each request runs to completion before the next, so the read-then-write race on the counter does not arise.
- Store failures are not modelled. KV and D1 calls always succeed. The only exceptions modelled are the one from `new URL(referrer)` and the one from `Response.redirect` for a destination the URL parser rejects.
- Worker.RedirectStep: the empty slug (a request for `/`) is looked up in `CLICKSY` like any other key. The namespace rejects an empty key, but because KV calls are assumed to succeed, the model answers 404 instead of throwing.
- Worker.RedirectStep: `Response.redirect` is modelled as accepting exactly the destinations for which the `href` parameter gives a serialisation, and as sending that serialisation. The model does not tie `href` and `hostname` to one parser, since one is applied only to the referrer and the other only to the destination.
- `Date.now()` and `Math.random()` become parameters. The base-36 rendering of the random part is not modelled.
- URL parsing of the request (pathname, query pairs, `searchParams.toString()`) is taken as given in `Worker.Request`.
- JSON serialisation is not modelled. This covers the stats response and the broadcast summary, which a `Live.Socket` records as a value.
- The redirect's POST to `LIVE_ANALYTICS` (worker.js:101-104), with its own `Date.now()` reading at worker.js:103, is left out of `Worker.RedirectStep`. It has no `Upgrade` header, so if the binding forwards to `LiveAnalytics.fetch` (assumed, not shown in the code) it only gets a 426.
- Stats.SortByTotal: fixes one order for rows with equal totals, where SQL leaves that order open. The order-independence lemmas therefore speak of totals position by position and of each row's contents, not of which tied row comes first.
- Stats.Row: `AVG(response_time)` is kept as an exact sum, and `AvgResponseTime` divides it exactly. The `GROUP_CONCAT(DISTINCT …)` columns are sets, without the comma-joined order.
- Stats.WindowLength: `timeFilter` is a plain object, so a `time` such as "toString" would find a function on its prototype; the model treats every key other than the four as unknown.
- Classifier.ParseUserAgent: has no contract of its own. Its three parts do.
- Stats.HandleStats: has no contract of its own. Each stage of it has one.
- Stats.Aggregate: has no contract of its own. Stats.AggregateRowsAreSummaries, Stats.AggregateOrderAndLimit, Stats.FilteredToOneDomain and the two order-independence lemmas state its properties.
- Stats.Cutoff: the five `Date.now()` readings of `handleStats` (worker.js:117-121) are one reading, `now`, so the model does not capture the clock moving between them.
- Worker.Step: has no contract of its own. Worker.StepRoutes states its routing, and Worker.Fetch is proved equal to it.
- Worker.RedirectStep: has no contract of its own. Worker.RedirectCases, Worker.RedirectRateLimit, Worker.RedirectNotFound, Worker.RedirectRecords, Worker.RedirectTracks, Worker.BurstFromZero and Worker.CounterExpiry state its properties, and Worker.Redirect is proved equal to it.
- Worker.RefDomain: has no contract of its own. Worker.Track states that no rows are written exactly when it is `None`, and fixes "Direct" for a missing Referer.
- Worker.SessionId: has no contract of its own. Worker.Track states that the session row carries the event's session identifier.
- Worker.RateKey: has no contract of its own. Worker.RateKeyShared states which addresses share a counter, and Worker.RateCount, Worker.Increment and Worker.IncrementReadsBack state what is read and written under it.
- JsNumber.JsToString: has no contract of its own. It is `String(v)`, with a missing value as "null". JsNumber.NullIsNaN, JsNumber.ParseIntOr, Stats.LimitOf and Worker.RateKeyShared state its effect where the code uses it.
- Worker.KvGet: has no contract of its own. It is `env.CLICKSY.get(key)`, and Worker.RateCount, Worker.RedirectNotFound and Worker.RedirectRecords state what it reads.
- JsNumber.DecimalString: has no contract of its own. JsNumber.DecimalRoundTrip and JsNumber.StoredCountReadsBack state that `parseInt` reads its text back.
- JsNumber.ParseInt: gives the exact integer and does not model the rounding of JavaScript numbers beyond 2^53.
- Live.Socket: has no connection between the two ends of a pair, no closed state and no failing `send`.
- Live.LiveAnalytics: does not keep the unused durable-object `state`.
