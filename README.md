# Solara edge functions in Dafny

This project models the server-side core of Solara, a web music player. The
core is a set of small HTTP edge functions:

- **The music proxy** comes in two variants, `api/proxy.js` and `api/proxy.ts`.
  - It answers CORS preflights.
  - It refuses everything but GET and HEAD.
  - It relays Kuwo audio files. The target must be an `http`/`https` URL on
    `kuwo.cn` or one of its subdomains, and is always fetched over plain
    `http:`.
  - It forwards every other request to the music API, passing the query on
    without `target` and `callback`.
  - It relays the upstream status and body unchanged, through a filter that
    keeps only eight safe response headers and adds a cache policy and
    `Access-Control-Allow-Origin: *`.
- **The key/value storage endpoint** is `functions/api/storage.ts`.
  - Its store is a Cloudflare D1 table `kv_store(key, value)`.
  - GET reads requested keys (`null` when absent) or every row.
  - POST upserts an object's entries in one batch.
  - DELETE removes a list of keys in one batch.
  - The method is matched case-insensitively; a missing method counts as GET.
- **The password gate** comes in two variants, `api/login.js` and
  `vercel/api/login.ts`.
  - A POST is accepted when no password is configured or the supplied one is
    exactly the configured one.
  - An accepted login sets the `auth` cookie to the Base64 of the secret, for
    48 hours, marked `Secure` behind an HTTPS proxy.

## Modules

One module per file:

- **`JsText`** models the JavaScript string built-ins the code uses:
  - ASCII case mapping
  - `trim` with ECMAScript white space
  - `split` on one character and `join`
  - decimal rendering of a number
- **`JsObject`** models a JavaScript object (or a `URLSearchParams` list) as
  an insertion-ordered list of name/value pairs.
  - Lookup finds the first pair.
  - Assignment overwrites in place or appends.
- **`SearchParams`** covers the `URLSearchParams.set` semantics (section 6.2
  of the WHATWG URL Standard) and the API query rewrite.
- **`KuwoUrl`** covers the host regular expression `/(^|\.)kuwo\.cn$/i` and
  `normalizeKuwoUrl`.
- **`CorsFilter`** covers `createCorsHeaders` as written, a corrected filter,
  and the lemmas that compare the two.
- **`NodeHeaders`** is Node's incoming request header table, shared by the
  proxy and login handlers.
- **`Proxy`** covers what both proxy variants share:
  - the routing decision (`Handle`)
  - the relay of the upstream response
  - the header table Node builds from `setHeader`
- **`ProxyJs` and `ProxyTs`** hold each variant's outgoing request headers and
  its handler.
- **`Storage`** models the D1 binding as a `Database` class whose `table` map
  the batch method updates. The GET, POST and DELETE handlers are methods over
  it.
- **`Login`** covers both login handlers, the decision they share and the
  cookie.

The handlers' own code shows what the response filter is meant to do. The
audio handler writes `public, max-age=3600` when no cache policy survives the
filter (`api/proxy.js:103-105`); the API handler writes the JSON content type
when none survives (`api/proxy.js:160-162`). As written, neither test can see
what upstream sent: the filter always adds an exact-case `Cache-Control`, and
Fetch reports names in lower case. See "## Findings". The relay methods
`Proxy.RelayAudio` and `Proxy.RelayApi` follow the code as written
(`CorsFilter.CreateCorsHeaders`, then the handler's fallback), and their
results are `Proxy.AudioResponseHeaders` and `Proxy.ApiResponseHeaders`.
`Proxy.RelayAudioCorrected` and `Proxy.RelayApiCorrected` relay through the
corrected filter `CorsFilter.ResponseHeaders`, whose intended properties are
proved as well.

Some parts become parameters:

- `new URL(...)` becomes a partial function `parse`.
- `Math.random()` becomes the `token` string of `ProxyJs`.
- `process.env.PASSWORD` becomes `env`.
- The Base64 encoder becomes `base64`.

## Model

| member | source | states |
|---|---|---|
| JsText.Trim | api/proxy.js:21 | the result has no leading or trailing ECMAScript white space, and is the input with only white space removed at both ends |
| JsText.TrimIdempotent | functions/api/storage.ts:53 | trimming twice gives what trimming once gives |
| JsText.Split | functions/api/storage.ts:52 | `split(sep)` yields at least one piece, no piece contains the separator, and joining the pieces with it gives back the input |
| JsText.SplitJoin | functions/api/storage.ts:52 | splitting the join of separator-free pieces gives back those pieces |
| JsText.SplitPrefix | api/proxy.js:21 | text before the first separator is the first piece |
| JsText.DecimalRoundTrip | api/login.js:23 | the decimal text of a number reads back as that number |
| JsObject.Put | api/proxy.js:41 | assigning a property sets it, leaves every other property alone, appends a new name at the end and keeps names distinct |
| JsObject.Assign | api/proxy.js:98-100 | assigning pairs in order yields an object with distinct names in which each name holds its last value |
| JsObject.GetAppend | api/proxy.js:129-141 | a name looked up in an object extended by new properties is found in the first part when present there |
| KuwoUrl.AllowedHostIff | api/proxy.js:60-62 | the host pattern accepts a hostname exactly when its lower-case form is `kuwo.cn` or ends with `.kuwo.cn` |
| KuwoUrl.AllowlistExamples | api/proxy.js:2 | `evilkuwo.cn` and `kuwo.cn.evil.com` are refused, `music.KUWO.cn` is accepted |
| KuwoUrl.NormalizeKuwoUrl | api/proxy.js:64-74 | a URL is accepted exactly when it parses, its host is allowed and its scheme is `http:` or `https:`; the result has scheme `http:` and every other part unchanged |
| KuwoUrl.NormalizedTargetIsKuwo | api/proxy.ts:45-55 | every accepted target is plain HTTP on `kuwo.cn` or one of its subdomains |
| SearchParams.Without | api/proxy.js:120 | removing a name removes all its pairs and leaves every other name's lookup unchanged |
| SearchParams.SetParam | api/proxy.js:120 | `set` leaves exactly one pair under the name, holding the new value, and leaves every other name's pairs unchanged |
| SearchParams.ApiQuery | api/proxy.js:117-121 | the forwarded query has distinct names |
| SearchParams.ApiQueryValues | api/proxy.js:117-121 | upstream, every name except `target` and `callback` holds the value of its last inbound pair; those two are absent |
| SearchParams.ApiQueryNames | api/proxy.js:117-121 | a name is forwarded exactly when it is present inbound and is neither `target` nor `callback` |
| SearchParams.BuildApiQuery | api/proxy.js:118-121 | the `forEach`/`set` loop computes the forwarded query |
| SearchParams.ApiQuerySnoc | api/proxy.js:118-121 | one more inbound pair is `set` upstream unless its name is `target` or `callback` |
| SearchParams.ApiQueryAppend | api/proxy.js:120 | a pair with a new forwarded name is appended |
| SearchParams.ApiQuerySkip | api/proxy.js:119 | a `target` or `callback` pair changes nothing |
| SearchParams.ApiQueryIdentity | api/proxy.js:117-121 | inbound parameters with distinct names, none of them `target` or `callback`, are forwarded unchanged and in their order |
| SearchParams.ApiQueryThreeNames | api/proxy.js:117-121 | three distinct forwarded names pass through in order |
| SearchParams.ApiQueryDropsTargetAndCallback | api/proxy.js:119 | trailing `target` and `callback` pairs are dropped |
| SearchParams.ApiQueryExample | api/proxy.ts:97-101 | `?types=json&source=kuwo&name=x&target=http://a&callback=cb` forwards `types=json&source=kuwo&name=x` |
| SearchParams.ApiQueryRepeatedName | api/proxy.ts:97-101 | a repeated name keeps its first position and its last value |
| CorsFilter.HeaderNames | api/proxy.js:3-12 | `Cache-Control` and `Content-Type` are safe-listed in any case; `Access-Control-Allow-Origin` is not |
| CorsFilter.SafeEntriesLastValue | api/proxy.js:39-43 | the kept pairs give a name its last upstream value when the name is safe-listed, and nothing otherwise |
| CorsFilter.SafeObjectGet | api/proxy.js:39-43 | after the copy loop, a safe-listed name holds its upstream value and no other name is present |
| CorsFilter.CorsHeaders | api/proxy.js:37-49 | the filtered headers have distinct names, `Access-Control-Allow-Origin: *` and a non-empty exact `Cache-Control` |
| CorsFilter.CorsHeadersGet | api/proxy.js:37-49 | each name of the filtered headers has the upstream value if safe, `no-store` for `Cache-Control` when that exact key was missing or empty, and `*` for the CORS header |
| CorsFilter.CorsHeadersShape | api/proxy.js:44-47 | the filtered headers have distinct names, only safe names or the CORS header, `Access-Control-Allow-Origin: *`, and a non-empty exact `Cache-Control` |
| CorsFilter.KeepSafe | api/proxy.js:38-43 | the copy loop yields the object of the safe-listed upstream pairs |
| CorsFilter.CreateCorsHeaders | api/proxy.js:37-49 | the filter as written computes the filtered headers |
| CorsFilter.NoStoreWithoutExactKey | api/proxy.js:44-46 | without the exact key `Cache-Control` upstream, the filter sets `no-store` |
| CorsFilter.LowercaseCacheControlShadowed | api/proxy.js:44-46 | a lower-case `cache-control: max-age=60` is kept and an exact `Cache-Control: no-store` is added beside it |
| CorsFilter.ResponseHeaders | api/proxy.js:103-105 | the corrected filter's headers have distinct names and `Access-Control-Allow-Origin: *` |
| CorsFilter.ResponseHeadersDefaults | api/proxy.js:103-105 | the corrected filter keeps the upstream cache policy and content type in any letter case; it adds the per-mode cache default (one hour for audio) and the JSON type for the API only when they are missing |
| CorsFilter.FilterResponseHeaders | api/proxy.ts:18-30 | the corrected filter, written as the loop and the additions of `createCorsHeaders` with case-insensitive checks, computes the corrected headers |
| CorsFilter.CorrectedFilterExamples | api/proxy.ts:84-86 | with the corrected filter, audio without a cache policy is cached for an hour, and a lower-case upstream policy is not joined by another |
| Proxy.Handle | api/proxy.js:173-193 | OPTIONS gets 204 with the four preflight headers and anything but GET/HEAD gets 405; a non-empty `target` takes the audio path (400 `Invalid target` unless it normalises; otherwise the fetch keeps the method, goes to the normalised `target`, which is `http:` on an allowed host, and sends the audio headers); otherwise the API path (400 `Missing types` without `types`; otherwise the fetch sends the rewritten query `SearchParams.ApiQuery` of the inbound one with the source-dependent headers). Each outcome holds exactly under its condition |
| Proxy.HandleApiQuery | api/proxy.js:128 | the forwarded query, and so the `source` that picks the headers, carries each name's last inbound value |
| Proxy.SentGet | api/proxy.js:108-110 | in a case-insensitive header table, a lower-case name holds the last value set under any of its spellings |
| Proxy.CollectHeaders | api/proxy.js:97-100 | the `forEach` copy of the upstream headers computes the object of their pairs |
| Proxy.RelayAudio | api/proxy.js:96-113 | the status and body are relayed unchanged; the headers set are the collected upstream headers through `createCorsHeaders`, then the one-hour fallback when the exact `Cache-Control` is empty |
| Proxy.AudioResponseHeaders | api/proxy.js:102-105 | the audio headers as written have distinct names, `Access-Control-Allow-Origin: *` and a non-empty exact `Cache-Control` |
| Proxy.RelayApi | api/proxy.js:154-170 | the status and body are relayed unchanged; the headers set are the collected upstream headers through `createCorsHeaders`, then the JSON fallback when the exact `Content-Type` is empty |
| Proxy.ApiResponseHeaders | api/proxy.js:159-162 | the API headers as written have distinct names, `Access-Control-Allow-Origin: *`, and a non-empty exact `Cache-Control` and `Content-Type` |
| Proxy.RelayAudioCorrected | api/proxy.js:96-113 | the audio relay with the corrected filter: status and body unchanged, headers the upstream headers through the corrected filter for audio |
| Proxy.RelayApiCorrected | api/proxy.js:154-170 | the API relay with the corrected filter: status and body unchanged, headers the upstream headers through the corrected filter for the API |
| Proxy.AudioFallbackDead | api/proxy.js:102-105 | the audio `public, max-age=3600` fallback never changes the headers |
| Proxy.CorsHeadersAppends | api/proxy.js:37-49 | with the lower-case names Fetch enumerates, the filter returns the kept pairs followed by `Cache-Control: no-store` and `Access-Control-Allow-Origin: *` |
| Proxy.RelayedPolicyAsWritten | api/proxy.js:159-162 | as written, the client sees `cache-control: no-store` on every relayed response, and `content-type` JSON on every API response, whatever upstream sent |
| Proxy.CorrectedShape | api/proxy.ts:83-86 | for any lower-case upstream pairs, repeated names such as several `set-cookie` included, the corrected filter's output is the kept pairs of the collected object, then the cache default only when the last upstream `cache-control` is empty or missing, the CORS header, and the JSON type only for an API response whose last `content-type` is empty or missing |
| Proxy.CorrectedRelayPolicy | api/proxy.ts:129-137 | for any lower-case upstream pairs, with the corrected filter the client sees the last upstream cache policy and content type when non-empty, and the per-mode defaults otherwise |
| Proxy.CorrectedShapeDistinct | api/proxy.ts:83-86 | for upstream pairs with distinct names, the same shape stated with the pairs themselves |
| Proxy.CorrectedRelayPolicyDistinct | api/proxy.ts:129-137 | for upstream pairs with distinct names, the same policy stated with the pairs themselves |
| ProxyJs.GetHeader | api/proxy.js:32-35 | a string header as is, an array header's first element, nothing for an absent header or an empty array |
| ProxyJs.FirstHop | api/proxy.js:19-23 | there is a first hop exactly when `x-forwarded-for` is a non-empty string; it contains no comma and is trimmed |
| ProxyJs.ClientIp | api/proxy.js:18-26 | the client address is non-empty; it is the trimmed text before the first comma of `x-forwarded-for` when that is non-empty, else a non-empty `x-real-ip`, else none |
| ProxyJs.ClientIpFirstHop | api/proxy.js:21-22 | a forwarded chain `client, proxy…` yields the trimmed client |
| ProxyJs.UserAgent | api/proxy.js:86 | the inbound User-Agent when non-empty, the desktop Chrome string otherwise; never empty |
| ProxyJs.AudioRequestHeaders | api/proxy.js:83-94 | the audio fetch sends the User-Agent, the Kuwo home referer and the inbound `Range` when there is one, and nothing else |
| ProxyJs.ApiRequestHeaders | api/proxy.js:129-147 | every API request carries the User-Agent and the JSON Accept header, and a cookie exactly when the source is `kuwo` |
| ProxyJs.BaseApiPrefix | api/proxy.js:129-132 | headers added after the base pair leave its User-Agent and Accept values unchanged |
| ProxyJs.ApiRequestHeadersOther | api/proxy.js:129-132 | for a source other than `kuwo` only User-Agent and Accept are sent |
| ProxyJs.KuwoApiHeadersGet | api/proxy.js:134-141 | the Kuwo additions carry the search-page referer, the Kuwo origin and language, `X-Requested-With: XMLHttpRequest`, the cookie `kw_token=T; csrf=T` and `csrf: T` for one token T, and no base or forwarding header |
| ProxyJs.ApiRequestHeadersKuwo | api/proxy.js:128-147 | for `kuwo` the request carries the User-Agent, JSON Accept, search referer, Kuwo origin, language, `X-Requested-With`, one token in cookie and `csrf`, and the client address in both forwarding headers, or in neither when it is unknown; no other header is sent |
| ProxyJs.Handler | api/proxy.js:173-193 | an audio fetch keeps the method and goes over `http:` to the normalised `target` on an allowed host with the audio headers; an API fetch has `types` but neither `target` nor `callback`, and sends a cookie exactly when the source is `kuwo` |
| ProxyTs.UserAgent | api/proxy.ts:67 | the inbound User-Agent whenever present (even empty; an array arrives comma-joined), `Mozilla/5.0` when absent |
| ProxyTs.AudioRequestHeaders | api/proxy.ts:64-75 | the audio fetch sends User-Agent and the Kuwo home referer, plus `Range` exactly when the inbound range is a single string |
| ProxyTs.HeaderKeys | api/proxy.ts:109-118 | the base headers are User-Agent and Accept; the Kuwo additions are Referer, Origin and Accept-Language |
| ProxyTs.ApiRequestHeaders | api/proxy.ts:109-118 | every API request carries the User-Agent and the JSON Accept header; the names sent are exactly those two, plus Referer, Origin and Accept-Language when the source is `kuwo` |
| ProxyTs.ApiHeaderNames | api/proxy.ts:109-118 | the base headers are named User-Agent and Accept; with the Kuwo additions, also Referer, Origin and Accept-Language |
| ProxyTs.BaseApiPrefix | api/proxy.ts:109-112 | headers added after the base pair leave its User-Agent and Accept values unchanged |
| ProxyTs.ApiRequestHeadersGet | api/proxy.ts:109-118 | every API request has User-Agent and Accept; `kuwo` adds the home referer, origin and language; no request carries a cookie or client address |
| ProxyTs.Handler | api/proxy.ts:143-163 | the routing of the shared handler, with this variant's headers; an audio fetch keeps the method and goes to the normalised `target`; an API fetch never sends a cookie |
| Storage.Database.SelectIn | functions/api/storage.ts:62-66 | the rows read are stored pairs, one per requested key that exists |
| Storage.Database.SelectAll | functions/api/storage.ts:71-72 | the rows read are all stored pairs, one per key |
| Storage.Database.Batch | functions/api/storage.ts:108 | the statements take effect in order, as one update of the table |
| Storage.NonEmpty | functions/api/storage.ts:54 | `filter(Boolean)` keeps exactly the non-empty names, in order, and never lengthens the list |
| Storage.NonEmptyAppend | functions/api/storage.ts:54 | filtering a concatenation filters each part, keeping order and repetitions |
| Storage.NonEmptySingle | functions/api/storage.ts:54 | a single name is kept exactly when it is non-empty |
| Storage.TrimAll | functions/api/storage.ts:53 | each piece is trimmed |
| Storage.ParseKeys | functions/api/storage.ts:50-54 | parsed keys are non-empty, trimmed and contain no comma |
| Storage.ParseKeysJoin | functions/api/storage.ts:50-54 | such a key list survives the trip through a comma-joined `keys` parameter |
| Storage.ParseKeysEmpty | functions/api/storage.ts:50 | an absent or empty `keys` parameter names no key |
| Storage.ParseKeysBlank | functions/api/storage.ts:51-54 | a parameter of blanks and commas names no key |
| Storage.NullForEach | functions/api/storage.ts:67-69 | every requested key is present with `null`, and only those |
| Storage.OverwriteRows | functions/api/storage.ts:75-77 | a key read from the table holds its row's value; other keys are unchanged |
| Storage.HandleGet | functions/api/storage.ts:39-80 | without D1 the answer is `{d1Available:false, data:{}}`; a non-empty `status` gives `{d1Available:true}`; otherwise each requested key holds its stored value or `null`, and without requested keys every stored key holds its value. The table is only read |
| Storage.NonEmptyKeys | functions/api/storage.ts:94 | only entries with non-empty keys remain; each such key keeps its last value |
| Storage.UpsertsEffect | functions/api/storage.ts:101-108 | after the upserts a payload key holds the stored form of its last value; other keys keep theirs |
| Storage.RemovesEffect | functions/api/storage.ts:127-128 | the deletes remove exactly the given keys; missing keys are no-ops |
| Storage.PostTableEffect | functions/api/storage.ts:87-109 | a POST stores `""` for null and the text for other values under each non-empty key; every other key, and the whole table for a rejected payload, is unchanged |
| Storage.HandlePost | functions/api/storage.ts:82-110 | without D1 the answer is `{d1Available:false, data:{}}`; a payload that is not an object, or is an array, gives 400 `Invalid payload`; otherwise the answer is `{d1Available:true, updated}` where `updated` counts the non-empty keys, and the table is the upserted one |
| Storage.ValidKeys | functions/api/storage.ts:118-120 | exactly the non-empty string items are kept |
| Storage.ValidKeysAppend | functions/api/storage.ts:118-120 | filtering a concatenation filters each part, keeping order and repetitions |
| Storage.ValidKeysSingle | functions/api/storage.ts:118-120 | a single item gives a key exactly when it is a non-empty string |
| Storage.HandleDelete | functions/api/storage.ts:112-130 | without D1 the answer is `{d1Available:false}`; otherwise the answer is `{d1Available:true, deleted}`, exactly the valid keys are removed, and `deleted` counts them, absent ones included |
| Storage.PostThenGet | functions/api/storage.ts:101-108 | a GET after a POST reports each posted key with its stored value |
| Storage.DeleteThenGet | functions/api/storage.ts:127 | a GET after a DELETE reports a requested deleted key as `null` and leaves it out of a full read |
| Storage.OnRequest | functions/api/storage.ts:132-153 | OPTIONS gets 204 with no body; GET, POST and DELETE reach their handlers; every other method gets 405; only POST and DELETE change the table |
| Storage.Verb | functions/api/storage.ts:134 | a missing method is `GET`; any other method is its upper-cased form, with no lower-case letter left |
| Storage.VerbDefaults | functions/api/storage.ts:134 | a missing method is GET, and `delete` selects DELETE |
| Storage.VerbMatches | functions/api/storage.ts:134 | a request selects an upper-case method name exactly when its method spells that name in any mix of letter cases, or it has no method and the name is `GET` |
| Storage.UpperCharMatches | functions/api/storage.ts:134 | upper-casing yields an upper-case letter exactly from that letter and its lower-case form |
| Storage.KnownVerbs | functions/api/storage.ts:134-147 | GET (also for a missing method), POST, DELETE and OPTIONS are each selected by every spelling of the name and by nothing else |
| Login.BuildCookie | api/login.js:20-37 | the cookie is the five segments, then `Secure` when the request counts as HTTPS, joined by `; ` |
| Login.Outcome | api/login.js:1-44 | the answer is 200, 401 or 405; it is 200 exactly for a POST whose password is accepted, and only then does it set a cookie and report success |
| Login.OutcomeDecision | api/login.js:1-44 | non-POST gets 405; a POST is accepted with 200 and a cookie exactly when no secret is set or the supplied password equals it; otherwise 401 without a cookie; a missing password is refused when a secret is set |
| Login.MaxAgeDigits | api/login.js:20-23 | `Max-Age` is `172800` |
| Login.CookieText | api/login.js:21-37 | the cookie reads `auth=<encoded>; Max-Age=172800; Path=/; SameSite=Lax; HttpOnly`, followed by `; Secure` exactly for HTTPS |
| Login.CookieShape | api/login.js:29-37 | the cookie starts with the fixed segments and ends with `; Secure` exactly when the request counts as HTTPS |
| Login.SecureJs | api/login.js:29-35 | the request counts as HTTPS when `x-forwarded-proto` is the string `https` or an array starting with it, and never without the header |
| Login.SecureTs | vercel/api/login.ts:31 | the request counts as HTTPS exactly when `login.js` would count it so and the header is a single string |
| Login.HandlerJs | api/login.js:1-44 | the handler answers the shared decision, counting the request as HTTPS when the first `x-forwarded-proto` value is `https` |
| Login.HandlerTs | vercel/api/login.ts:3-42 | the handler answers the shared decision, counting the request as HTTPS only when the header is the single string `https` |
| Login.VariantsAgree | vercel/api/login.ts:31-33 | the variants agree unless `x-forwarded-proto` is an array; `["https"]` is secure for `login.js` only |

## Left out

- The URL parser (IDNA, percent-encoding, the port when the scheme changes) and URL serialisation are left out. A parsed URL is scheme, hostname and an opaque rest, and `new URL` is the parameter `parse`.
- `fetch`, `arrayBuffer`, `Buffer`, `res.status`/`send`/`end` are left out. An upstream response is a status, header pairs and bytes, and the relay methods return what is handed to the response.
- Node's case-insensitive merging in `res.setHeader` is not part of what the handlers return. `Proxy.Sent` describes what such a table keeps, and the findings are stated through it.
- `Math.random` in `createKuwoToken` is the parameter `token`.
- `process.env.PASSWORD` is the parameter `env`. Base64 over UTF-8 (section 4 of RFC 4648) is the opaque parameter `base64`.
- JavaScript orders integer-like property names first in objects. The model keeps plain insertion order, so JSON key order in storage answers is not modelled.
- Case mapping covers ASCII letters only. The safe header names contain no letter whose Unicode lower-casing differs.
- SQL text, `ensureTable`, `updated_at`, D1 failures and row order are left out. The table is a map, and `batch` applies all statements as one update.
- Storage.PostTableEffect: `String(value)` of a non-null payload value is an opaque text supplied with the payload.
- A POST or DELETE body that parses to JSON `null` makes the code throw. This is not modelled; a body that fails to parse is modelled as `{}`.
- `hasD1` checks that `env.DB.prepare` is a function. A binding that fails this check is modelled as a null `Database`.
- The `try`/`catch` around the password read in the login handlers cannot be reached for the request bodies modelled here, and the handlers' `Content-Type: application/json` header is a constant that is not modelled.
- JSON bodies are datatypes, not serialised text.
- Storage.HandlePost: the entries of an object payload are not required to have distinct names, although `Object.entries` never repeats one. The contracts hold for any entry list; for a list with a repeated name, `updated` counts every non-empty entry, as `entries.length` would for that list.
- Storage.HandleGet: a stored or requested key `__proto__` is not modelled as JavaScript treats it. In `data[key] = null` and `data[row.key] = row.value` (`functions/api/storage.ts:68`, `:76`) that name sets the object's prototype rather than an own property, so such a key is missing from the JSON answer; the model reports it like any other key.

## Findings

| source | as written | input that shows it | evidently intended | confidence | as-written member | corrected member |
|---|---|---|---|---|---|---|
| api/proxy.js:103-105 | `createCorsHeaders` always leaves a non-empty exact `Cache-Control`, so the audio fallback `public, max-age=3600` never applies (the same in `api/proxy.ts:84-86`) | an audio response without any cache header: the client gets `Cache-Control: no-store` | audio without an upstream cache policy is cached for an hour | high, not executed | Proxy.AudioFallbackDead | CorsFilter.ResponseHeadersDefaults |
| api/proxy.js:44-46 | the presence checks for `Cache-Control` and `Content-Type` are exact-case, while Fetch enumerates lower-case names, so the upstream policy and type are overridden in the header table (also `api/proxy.js:160-162`) | upstream `cache-control: max-age=60`: the client sees `no-store` | an upstream cache policy or content type in any case is kept, and defaults apply only when it is missing | high, not executed | Proxy.RelayedPolicyAsWritten | Proxy.CorrectedRelayPolicy |
