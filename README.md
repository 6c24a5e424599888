# axios-simple-cache-adapter, modelled in Dafny

This project models the core of an HTTP GET response cache for axios. It has
three cooperating parts.

- **`CacheService`** (`cache.dfy`, module `Cache`) is a key/value cache with lazy
  time-based expiry. It sits over an item-store backend supplied by the caller
  (`getItem` / `setItem` / `removeItem`).
  - Every key is namespaced as `axios-cache::<url>`.
  - `set` writes `{expiration: now + ttl, value}`.
  - `get` serves the value while `expiration >= now`. Once `expiration < now`, it
    removes the entry and answers `null`.
  - An expiration that is not a number never expires.
- **The TTL policy** (`ttl.dfy`, module
  `Ttl`) decides how long a fresh response may be cached. It checks, in order:
  1. a numeric per-request `cache` directive;
  2. a boolean directive combined with the adapter's `defaultTTL`;
  3. the first response header whose name lower-cases to `cache-control`. From
     that header, `s-maxage` is preferred over `max-age` (the response directives
     of sections 5.2.2.10 and 5.2.2.1 of RFC 9111).
- **The request interceptor** (`adapter.dfy`, module `Adapter`) is the function
  `createCacheAdapter` returns. It:
  1. decides whether the request is a GET, ignoring case;
  2. for a GET, looks the URL up in the cache;
  3. on a hit, answers with the cached response without calling the transport;
  4. on a miss, calls the transport, asks the TTL policy, and stores the response
     when the request is a GET and the TTL is truthy;
  5. logs one message per hit and one per store when `debug` is set.

`types.dfy` (module `Types`) holds the data model: request configs, responses,
the persisted entry, and the option/result wrappers. `strings.dfy` (module
`Strings`) models `toLowerCase` on ASCII and the decimal rendering of an integer
in a template literal.

The model has three layers:

- pure specification functions: `Cache.Lookup`, `Cache.Evict`, `Cache.Store`,
  `Ttl.GetCacheTTL` and `Adapter.Intercept`;
- lemmas about those functions;
- classes whose methods mutate state in place and are proved equal to the
  specification functions: `Cache.ItemStore`, `Cache.CacheService`,
  `Adapter.Transport`, `Adapter.Logger` and `Adapter.CacheAdapter`.

The foreign pieces become inputs:

- The clock becomes explicit timestamps. `cache.get` reads `lookupTime` and
  `cache.set` reads `storeTime`.
- `axios.getUri(config)` becomes the `url` argument.
- The transport is an object whose answer is a function of the config. It
  records every config it receives.
- The logger is an object that records its messages.
- The `cache-control-parser` package becomes the function parameter `parse`.
  Its type makes it a total, deterministic function from a header value to the
  two integer directives, each present or absent. Nothing else is assumed about
  it; a parser that throws or reports fractions is not modelled.

## Behaviour worth knowing

- **Cache hits.** The hit path spreads the cached config last
  (src/adapter.ts:41), so the cached config's fields win over the incoming
  ones (`Adapter.ServeCached`).
- **How `getCacheTTL` is called.** `adapter.ts` passes one object
  `{config, response, defaultTTL, parseHeaders}` (src/adapter.ts:45-50), but
  `ttl.ts` takes positional `(config, response, defaultTTL)` (src/ttl.ts:17-21).
  The model follows `ttl.ts`. As a result, `parseHeaders` is accepted but never
  consulted (`Adapter.ParseHeadersIgnored`). With no directive, the header is
  always used.
- **Header values.** The header's lifetime is returned exactly as the parser
  reports it (src/ttl.ts:11).
  - It is not converted from seconds to milliseconds
    (`Ttl.HeaderSecondsNotConverted`).
  - A zero is returned as `0`, not `null`. Zero is falsy, so nothing is stored
    (`Ttl.ZeroMaxAgeIsFalsy`).
  - Falling back from a boolean directive to the header (the table in
    tests/ttl.spec.ts:57-78) does not happen: a boolean directive never reads the
    headers.
- **Entries served at the expiration instant.** The comparison is strict
  (src/cache.ts:36), so an entry is still served when `now == expiration`.
- **No stripping before storing.** `cache.set` receives the whole response,
  request handle included (src/adapter.ts:56).
- **One backend shape is used.** `CacheService` calls only `getItem`,
  `setItem` and `removeItem` (src/cache.ts:26-51), although src/types.ts:18-45
  declares map-like and cache-manager-like shapes too.
- **The directive's field name.** The field is named `cache`, after
  src/types.ts:65. src/constants.ts, which defines `AXIOS_CACHE`, is not part of
  this model.

## Model

| member | source | states |
|---|---|---|
| `Strings.LowerChar` | src/ttl.ts:9 | ASCII upper-case letters map to their lower-case letter; every other character is unchanged |
| `Strings.Lower` | src/adapter.ts:31 | on ASCII, `toLowerCase` keeps the length and lower-cases each character in place (beyond ASCII it need not keep the length, which is not modelled) |
| `Strings.LowerIdempotent` | src/ttl.ts:9 | lower-casing twice is the same as lower-casing once |
| `Strings.SameUpToCaseLowersAlike` | src/ttl.ts:9 | two strings lower-case alike iff they have the same length and, at each position, the same character or the two cases of one ASCII letter |
| `Strings.NatToDecimal` | src/adapter.ts:53 | a non-empty string of decimal digits, with no leading zero |
| `Strings.DecimalRoundTrip` | src/adapter.ts:53 | reading the rendered digits back gives the number |
| `Strings.IntToString` | src/adapter.ts:53 | a negative number is rendered as `-` followed by the digits of its magnitude |
| `Strings.IntToStringInjective` | src/adapter.ts:53 | two integers with the same rendering are equal |
| `Cache.CacheKey` | src/cache.ts:62-64 | the backend key is `axios-cache::` followed exactly by the given key |
| `Cache.CacheKeyInjective` | src/cache.ts:62-64 | two keys share a backend key iff they are equal |
| `Cache.Expired` | src/cache.ts:34-37 | an entry is stale iff its expiration is a number strictly before `now`; at the expiration instant it is still fresh, and a non-number expiration is never stale |
| `Cache.ForeignKeysUntouched` | src/cache.ts:62-64 | a backend key without the namespace prefix is never the cache's key for anything |
| `Cache.Lookup` | src/cache.ts:25-47 | `get` serves a value iff an entry exists under `CacheKey(key)` and is not expired, and the value is that entry's |
| `Cache.Evict` | src/cache.ts:34-42 | after `get`, the entry under `CacheKey(key)` remains iff it was present and not expired; nothing else is added, removed or changed |
| `Cache.StoredEntry` | src/cache.ts:52-55 | the written entry holds the value, and its expiration is exactly `ttl` after `now` |
| `Cache.Store` | src/cache.ts:49-56 | `set` writes the entry under `CacheKey(key)`, adds no other key, and keeps every other key's entry |
| `Cache.LookupAccesses` | src/cache.ts:26-41 | `get` reads `CacheKey(key)` once, then removes that same key iff the entry there is expired |
| `Cache.AccessesUseCacheKey` | src/cache.ts:26-38 | every backend call made by `get` is at `CacheKey(key)` |
| `Cache.MissingKeyIsMiss` | src/cache.ts:26-46 | with nothing stored, `get` returns null after a single read and leaves the backend unchanged |
| `Cache.SetThenGetWithinTtl` | src/cache.ts:31-44 | after `set(key, v, ttl)` at `t0`, a `get` at any `t <= t0 + ttl` returns `v` and changes nothing |
| `Cache.SetThenGetAfterTtl` | src/cache.ts:34-42 | after the expiration, `get` returns null and removes the key, so any later `get` is also null |
| `Cache.NotANumberNeverExpires` | src/cache.ts:35 | an entry whose expiration is not a number is served at every instant and never removed |
| `Cache.ExpiryIsMonotone` | src/cache.ts:34-36 | once an entry is stale it stays stale at every later time |
| `Cache.LookupIdempotent` | src/cache.ts:25-47 | a second `get` at the same instant gives the same answer and changes nothing further |
| `Cache.StoreIsolatesKeys` | src/cache.ts:50-56 | writing one key does not change what `get` answers for any other key |
| `Cache.ItemStore.constructor` | src/types.ts:8-12 | a backend starts with the given contents and no recorded calls |
| `Cache.ItemStore.GetItem` | src/types.ts:9 | returns the entry under the key, or null; records the read; nothing else changes |
| `Cache.ItemStore.SetItem` | src/types.ts:11 | replaces the entry under the key and records the write |
| `Cache.ItemStore.RemoveItem` | src/types.ts:10 | deletes the key (absence is not an error) and records the removal |
| `Cache.CacheService.constructor` | src/cache.ts:13-15 | the supplied backend is the one the service keeps and uses for all operations |
| `Cache.CacheService.Get` | src/cache.ts:25-47 | returns `Lookup`, leaves the backend as `Evict`, and makes exactly the calls of `LookupAccesses` |
| `Cache.CacheService.Set` | src/cache.ts:49-60 | leaves the backend as `Store`, through one `setItem` at `CacheKey(key)` |
| `Ttl.Truthy` | src/adapter.ts:51 | a TTL is truthy iff it is present and not zero |
| `Ttl.IsCacheControl` | src/ttl.ts:9 | a header name matches iff it is `cache-control` up to the case of its ASCII letters |
| `Ttl.FirstCacheControl` | src/ttl.ts:8-13 | the index found is a `Cache-Control` name, and no earlier header has one; with no index, no header has one |
| `Ttl.Lifetime` | src/ttl.ts:11 | `s-maxage` when present, otherwise `max-age`; null iff neither is present |
| `Ttl.ParseCacheControlHeader` | src/ttl.ts:5-15 | null when no header name lower-cases to `cache-control`; otherwise the lifetime of the first such header's value |
| `Ttl.SpellingsOfCacheControl` | src/ttl.ts:9 | `cache-control`, `CACHE-CONTROL` and `Cache-Control` all match; `Authorization` does not |
| `Ttl.NoCacheControlHeaderIsNull` | src/ttl.ts:8-14 | with no matching header the result is null |
| `Ttl.HeaderNameCaseIgnored` | src/ttl.ts:9 | renaming a header to another casing of its name does not change the result |
| `Ttl.LaterHeadersIgnored` | src/ttl.ts:8-12 | headers appended after a matching one never change the result |
| `Ttl.SharedMaxAgeWins` | src/ttl.ts:11 | `s-maxage` wins over `max-age` in the first matching header; with neither, the result is null |
| `Ttl.GetCacheTTL` | src/ttl.ts:17-30 | a TTL, when there is one, is the numeric directive, the default TTL or the header's lifetime; a boolean directive gives either nothing or a truthy default; `false` gives nothing |
| `Ttl.NumericDirectiveWins` | src/ttl.ts:22-25 | a numeric `cache` directive is the TTL, whatever the default TTL and the headers are |
| `Ttl.BooleanDirective` | src/ttl.ts:26-28 | a boolean directive yields the default TTL iff it is `true` and the default is truthy, otherwise null; headers are never read |
| `Ttl.NoDirectiveUsesHeader` | src/ttl.ts:29 | without a numeric or boolean directive, the TTL equals `parseCacheControlHeader(response)` |
| `Ttl.HeaderSecondsNotConverted` | src/ttl.ts:11 | `max-age=100` gives a TTL of 100; the value is not multiplied by 1000 |
| `Ttl.ZeroMaxAgeIsFalsy` | src/ttl.ts:11 | `max-age=0` gives `0`, not null, and that TTL is falsy |
| `Adapter.DefaultOptions` | src/adapter.ts:19-25 | by default `debug` and `parseHeaders` are off and there is no default TTL |
| `Adapter.IsGetRequest` | src/adapter.ts:31 | eligible iff the method is a string that lower-cases to `get`; a missing or null method is ineligible; any other method value throws |
| `Adapter.GetSpellings` | src/adapter.ts:31 | `get`, `GET` and `Get` are eligible; `post`, `put`, `patch`, `delete` and no method are not |
| `Adapter.ServeCached` | src/adapter.ts:39-42 | the cached response with its config merged over the incoming one: cached keys win, and incoming-only keys are kept |
| `Adapter.HitMessage` | src/adapter.ts:36 | the hit message is the fixed prefix followed by exactly the URL |
| `Adapter.StoreMessage` | src/adapter.ts:53 | the store message is the fixed prefix, the URL, ` with TTL: `, then exactly the rendered TTL |
| `Adapter.StoreMessageDeterminesTtl` | src/adapter.ts:53 | for one URL, two store messages are equal only if their TTLs are equal |
| `Adapter.MessagesDistinct` | src/adapter.ts:36-53 | a hit message never equals a store message |
| `Adapter.Intercept` | src/adapter.ts:28-59 | a request calls the transport at most once, and only with the incoming config; a failure without a transport call is the method error; at most one message is logged, none without `debug`; at most three backend calls |
| `Adapter.NonStringMethodFails` | src/adapter.ts:31 | a method that is neither a string nor null fails the request before any cache, transport or log call |
| `Adapter.NonGetBypassesCache` | src/adapter.ts:31-58 | a non-GET request makes no cache call, leaves storage unchanged, logs nothing, calls the transport once with the config, and answers as the transport answered |
| `Adapter.HitSkipsTransport` | src/adapter.ts:33-43 | on a hit, the transport is not called, storage is unchanged, and the answer is the cached response under the merged config; one log message iff `debug` |
| `Adapter.MissCallsTransportOnce` | src/adapter.ts:44-58 | on a miss, the transport is called exactly once with the config, and its answer is returned unchanged |
| `Adapter.TransportFailureWritesNothing` | src/adapter.ts:44 | when the transport fails, nothing is written; the request succeeds iff it is a GET hit; whenever the transport is reached, its failure is the answer, and storage only loses an expired entry |
| `Adapter.StoreIff` | src/adapter.ts:44-57 | a store happens iff the request is a GET, the lookup missed, the transport answered and the TTL is truthy; it writes `(url, response, ttl)` as the request's last backend call |
| `Adapter.AccessesUseCacheKeyOfUrl` | src/adapter.ts:32-56 | every backend call a request makes is at `CacheKey(url)` |
| `Adapter.LogCount` | src/adapter.ts:35-55 | with `debug`, exactly one message on a hit or a store and none otherwise; without `debug`, none ever |
| `Adapter.ParseHeadersIgnored` | src/adapter.ts:45-50 | the `parseHeaders` option makes no difference to any request |
| `Adapter.StoredResponseServedLater` | src/adapter.ts:33-57 | after a store, a later GET for the same URL up to the expiration is a hit: the transport is not called and the stored response is served |
| `Adapter.StoredResponseExpires` | src/adapter.ts:33-44 | after the expiration, the next GET removes the entry and calls the transport again |
| `Adapter.Transport.Execute` | src/adapter.ts:44 | answers with the transport's response to the config and records the call |
| `Adapter.Logger.Log` | src/adapter.ts:37 | appends the message to the logged messages |
| `Adapter.CacheAdapter.constructor` | src/adapter.ts:19-27 | a fresh `CacheService` over the supplied backend, with the supplied options, transport and logger |
| `Adapter.CacheAdapter.Request` | src/adapter.ts:28-59 | the answer, the new backend contents, the backend calls, the transport calls and the log messages are exactly those of `Intercept` |

## Left out

- Choosing the transport from the environment (src/adapter.ts:11-17), the default
  `localStorage` / `NodeLocalStorage` backend (src/cache.ts:16-22) and the default
  `console` logger. Storage, transport and logger are always supplied.
- `axios.getUri`, which is foreign URL building. The normalised URL is an input
  of each request.
- `JSON.stringify` / `JSON.parse`. Entries are stored as values, and the JSON round
  trip is taken to be lossless on them. The backend is assumed to hold only
  entries this cache wrote. Some behaviour is therefore not captured:
  - a throw on a cyclic response;
  - dropping functions and `undefined` properties;
  - `NaN` written as `null`;
  - a stored string that is not JSON, which makes `JSON.parse` throw (src/cache.ts:31);
  - an empty stored string, which is falsy and so a miss (src/cache.ts:30);
  - a stored object without `value`, which is returned as `undefined`, so the
    request misses and the entry is not removed (src/cache.ts:35-44).
- Promise handling: `isPromise` and the choice between sync and async backends.
  Backend calls are sequential and never fail, so storage failures are not
  modelled.
- Map-like and cache-manager-like backend shapes (src/types.ts:18-45). They are
  declared, but `CacheService` only calls `getItem` / `setItem` / `removeItem`.
- Concurrency between in-flight requests. Each request is modelled as one
  uninterrupted run.
- Floating point. Every number is an integer, so fractional and `NaN` TTLs and
  timestamps are not modelled. The rendering of numbers of 10^21 and beyond
  (exponent notation) is not modelled either.
- `toLowerCase` beyond ASCII. No non-ASCII character lower-cases into the
  letters of `get` or `cache-control`, so neither comparison is affected.
- Transport variation. The transport answers as a fixed function of the config,
  so two calls with equal configs get the same answer. The two-request lemmas
  take a separate transport for each request.
- Property values that are `undefined`. They are treated as absent keys; spread
  and every read in the core treat them the same way.
- The message texts (`Adapter.HitMessage`, `Adapter.StoreMessage` and the
  decimal rendering in `Strings`) only concern what `debug` logs. The caching
  behaviour does not depend on them.
