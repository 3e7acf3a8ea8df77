# Access-token manager and HTTP request pipeline, modelled in Dafny

This project models the two stateful components of a small PHP foundation library for API
clients.

- The **access-token manager** (`AbstractAccessToken`) obtains a server-issued token and
  caches it. It keeps an in-process `token` field and talks to an injected key-value cache.
  When no cache was injected, it lazily opens one over the system temp directory. Its cache
  key is `prefix . appId`, unless a subclass sets an explicit `cacheKey`. `getToken` refreshes
  through two hooks that a concrete subclass supplies: one asks the server, one validates the
  reply.
- The **request pipeline** (`Http`) keeps a default option set shared by every instance
  (a static property) and an append-only middleware list. It offers the verb helpers `get`,
  `post`, `json` and `upload`. `request` upper-cases the method, merges the defaults with the
  call's options and attaches a handler stack built from the middlewares. It then hands
  method, URL and options to the HTTP client.

Files and modules:

- `php.dfy` (`Php`): PHP scalars and truthiness. The values `null`, `false`, `0`, `""` and
  `"0"` are falsy for `if`, `?:` and `empty`.
- `credentials.dfy` (`Credentials`): the `Cache` class, which records its entries and every
  `save` call, and the `AccessToken` class. Also the pure specification of `setToken`
  (`Stored`) and `getToken` (`TokenRun`), which the methods are proved against, and the
  lemmas about them.
- `options.dfy` (`Options`): option values, `array_merge`, index assignment, `isset` and
  `strtoupper`.
- `multipart.dfy` (`Multipart`): the part list `upload` builds, the loop that builds it, and
  its shape.
- `http_pipeline.dfy` (`HttpPipeline`): the shared default store (`StaticDefaults`) and the
  `Http` class.

The two hooks are oracles, passed to `GetToken` as parameters. The server hook is a
`ServerReply`: either the reply's fields, or the exception it throws. The validation hook is a
function from the reply to `None` (accept) or `Some(message)` (throw). `GetToken` also
returns the list of hooks it called. The HTTP client is not modelled: `Request` and the verb
helpers return the `Dispatch` (method, URL, options) they would hand to it.

The model follows the code where its behaviour differs from what a caller would expect:

- On a cache hit, `getToken` has no `return` statement, so it returns null, not the cached
  token that the `@return string` annotation at src/AbstractAccessToken.php:92 promises.
- The cache is read even when the refresh is forced.
- A falsy TTL in `setToken` leaves an older truthy cache entry in place. That entry then
  shadows the new in-process token.
- A missing token or expiry field in the reply reads as null (PHP raises only a notice), not
  as an error.
- `upload` never passes its part list on.

`array_merge` with an argument that is not an array follows PHP 7: it warns and returns null.

## Model

| member | source | states |
|---|---|---|
| `Php.FalsyScalars` | src/AbstractAccessToken.php:96-98 | exactly null, false, 0, "" and "0" are falsy, the values that `?:`, `empty` and `if ($expires)` treat as missing |
| `Php.ElvisTruthy` | src/AbstractAccessToken.php:96 | `cached ?: token` is truthy exactly when the cache entry or the in-process token is |
| `Credentials.Cache.Save` | src/AbstractAccessToken.php:80 | a cache `save` stores the value under the key and appends exactly one record of the call to the save log |
| `Credentials.AccessToken.constructor` | src/AbstractAccessToken.php:15-69 | a new manager has no app ID, no secret, no cache and a null token, and keeps the subclass's prefix, explicit key and field names |
| `Credentials.AccessToken.SetAppId` | src/AbstractAccessToken.php:131-142 | the getter then returns the new app ID, and the cache key is re-derived from it |
| `Credentials.AccessToken.SetSecret` | src/AbstractAccessToken.php:147-158 | the getter then returns the new secret; the cache key does not change |
| `Credentials.AccessToken.SetCache` | src/AbstractAccessToken.php:167-172 | the injected cache is the one every later read and write goes to |
| `Credentials.AccessToken.GetCache` | src/AbstractAccessToken.php:179-182 | returns the injected cache; when there is none, creates one over the temp directory once and keeps it; the cache contents do not change |
| `Credentials.AccessToken.SetToken` | src/AbstractAccessToken.php:77-85 | the new cache state and token are `Stored` of the old ones under the cache key; app ID and secret do not change; the cache is not even created when the TTL is falsy |
| `Credentials.AccessToken.GetToken` | src/AbstractAccessToken.php:94-110 | the new cache state and token, the hooks called and the outcome are those of `TokenRun` on the old state; app ID and secret do not change; afterwards a cache always exists |
| `Credentials.DerivedKeyShape` | src/AbstractAccessToken.php:184-191 | without an explicit key, the key is the prefix followed by the app ID, with null read as "" |
| `Credentials.DistinctAppsDistinctKeys` | src/AbstractAccessToken.php:184-191 | under one prefix, two different app IDs never share a derived key |
| `Credentials.ExplicitKeyWins` | src/AbstractAccessToken.php:184-191 | an explicit cache key is returned unchanged, whatever the prefix and the app ID |
| `Credentials.StoredSavesIffTruthyTtl` | src/AbstractAccessToken.php:77-85 | `setToken(t, e)` performs exactly one `save(key, t, e)` if and only if `e` is truthy, otherwise leaves the cache untouched, and always sets the token to `t` |
| `Credentials.StoredTokenResolves` | src/AbstractAccessToken.php:77-96 | after `setToken(t, e)` with truthy `t`, `getToken` resolves `t`, except when `e` is falsy and a truthy entry was already cached under the key: then that entry is resolved |
| `Credentials.HooksRunIffForcedOrEmpty` | src/AbstractAccessToken.php:96-101 | hooks run if and only if the call is forced or the resolved value is empty; the server hook runs once and first, and validation runs if and only if the server hook returned a reply |
| `Credentials.HitReturnsNull` | src/AbstractAccessToken.php:96-110 | an unforced call that resolves a truthy value calls no hook, changes nothing and returns null |
| `Credentials.AcceptedRefreshStoresToken` | src/AbstractAccessToken.php:98-108 | an accepted refresh returns the reply's token field and sets the token to it; it saves it under the cache key with the expiry field as TTL exactly when an expiry field name is configured and the reply's value for it is truthy; otherwise the cache is unchanged |
| `Credentials.FailedRefreshChangesNothing` | src/AbstractAccessToken.php:99-103 | when the server hook or validation throws, the exception propagates and the cache, its save log and the token are unchanged |
| `Credentials.NoExpiryKeyStaysInProcess` | src/AbstractAccessToken.php:103-106 | without an expiry field name, a refresh passes a null TTL and never writes the cache |
| `Credentials.ColdCallIsForcedCall` | src/AbstractAccessToken.php:96-98 | when nothing truthy is resolved, an unforced call behaves exactly like a forced one |
| `Credentials.SetThenGetReturnsNull` | src/AbstractAccessToken.php:77-110 | as written: `setToken(t, e)` with truthy `t`, then an unforced `getToken`, returns null |
| `Credentials.CorrectedHitReturnsResolved` | src/AbstractAccessToken.php:94-110 | corrected `getToken`: a hit returns the truthy resolved value without calling a hook; every other call is unchanged |
| `Credentials.CorrectedSetThenGetReturnsToken` | src/AbstractAccessToken.php:77-110 | corrected `getToken`: after `setToken(t, e)` it returns `t` without a server round trip, unless a falsy `e` left an older truthy entry in place |
| `Credentials.RefreshScenario` | src/AbstractAccessToken.php:94-108 | app "app1", prefix "tok:", reply {access_token: "XYZ", expires_in: 3600}: `getToken()` returns "XYZ" after both hooks, and the one save is ("tok:app1", "XYZ", 3600) |
| `Credentials.RejectedScenario` | src/AbstractAccessToken.php:99-103 | a reply rejected by validation makes `getToken(true)` throw, and the cache entries and the token keep their values |
| `Credentials.SetThenGetScenario` | src/AbstractAccessToken.php:77-110 | on a fresh manager, `setToken(t, e)` with truthy `t`, then `getToken()`, calls no hook and returns null |
| `Options.MergePrecedence` | src/Http.php:213 | the merged options hold every default key and every call key; a call value wins on a collision even when both values are arrays (the merge is one level deep); other defaults keep their values |
| `Options.WithKeyOverwrites` | src/Http.php:217 | assigning the `handler` option sets it whatever was there before, keeps the other keys, and turns a null option set into an array holding only `handler` |
| `Options.UpperProperties` | src/Http.php:212 | upper-casing keeps the length, turns every lower-case ASCII letter into the same letter in upper case, changes nothing else and is idempotent |
| `Multipart.BuildMultipart` | src/Http.php:114-132 | the two loops build exactly `PartList(files, form)` |
| `Multipart.ArrayPartsAt` | src/Http.php:115-122 | an array entry yields one part per path; the `j`-th is named `name[]` and opens the `j`-th path |
| `Multipart.FormPartsAt` | src/Http.php:130-132 | the form yields one part per field; the `j`-th carries the `j`-th field's name and value |
| `Multipart.FilePartsCount` | src/Http.php:115-129 | the number of file parts is the sum of the array lengths plus the number of single-path entries |
| `Multipart.FilePartsAreHandles` | src/Http.php:115-129 | every file part holds a handle opened on a path |
| `Multipart.PartListShape` | src/Http.php:114-132 | the part count is the sum of the array lengths plus the single-path entries plus the form fields; the file parts come first, then the form parts in input order |
| `Multipart.TwoKindsOfFileEntry` | src/Http.php:115-129 | the single path `doc` and the paths `[b, c]` under `pics` give the parts `doc`, `pics[]`, `pics[]`, in that order |
| `HttpPipeline.StaticDefaults.constructor` | src/Http.php:31-35 | the initial default options resolve host names to IPv4 only |
| `HttpPipeline.Http.constructor` | src/Http.php:17-24 | a new pipeline has no middleware and uses the given shared default store |
| `HttpPipeline.Http.SetDefaultOptions` | src/Http.php:42-55 | the getter then returns exactly the options set |
| `HttpPipeline.DefaultsAreProcessWide` | src/Http.php:31-55 | the defaults one instance sets are the defaults another instance reads |
| `HttpPipeline.Http.AddMiddleware` | src/Http.php:165-180 | appends exactly one middleware at the end, keeps the earlier ones, and the getter returns the whole list |
| `HttpPipeline.Http.GetHandler` | src/Http.php:187-199 | the stack holds the middlewares in registration order, then the default handler; the default handler is there if and only if it is set and not null |
| `HttpPipeline.MiddlewareOrderScenario` | src/Http.php:187-199 | with middlewares m1 then m2 and no default handler, a request's handler stack is exactly [m1, m2] |
| `HttpPipeline.Http.Request` | src/Http.php:210-219 | the method is upper-cased; the options hold every default and call key, with the call's value winning; `handler` is always the freshly built stack; options that are not an array leave only `handler` |
| `HttpPipeline.Http.Get` | src/Http.php:67-70 | a `GET` request whose call options are exactly `{query}`, and the query reaches the client |
| `HttpPipeline.Http.Post` | src/Http.php:82-85 | a `POST` request whose call options are exactly `{form_params}`, and the form parameters reach the client |
| `HttpPipeline.Http.Json` | src/Http.php:97-100 | a `POST` request whose call options are exactly `{json}`, and the body reaches the client |
| `HttpPipeline.Http.Upload` | src/Http.php:112-135 | as written: a `POST` whose options are only `handler`; neither the part list nor the query nor the defaults reach the client |
| `HttpPipeline.MergeExample` | src/Http.php:213 | defaults {a: 1, b: 2} merged with call options {b: 3, c: 4} give {a: 1, b: 3, c: 4} |
| `HttpPipeline.Http.UploadCorrected` | src/Http.php:112-135 | corrected: the query and the built part list reach the client, with as many parts as paths plus form fields |

## Findings

| source | as written | input that shows it | evidently intended | confidence | as-written member | corrected member |
|---|---|---|---|---|---|---|
| src/Http.php:134 | the query array is merged with the string "multipart" instead of the built list; the merge fails to null, so only the handler option is sent | `upload(url, ['a' => 1], ['doc' => '/tmp/a.txt'])` | send the query and the built part list under `multipart` | high; not executed | `HttpPipeline.Http.Upload` | `HttpPipeline.Http.UploadCorrected` |
| src/AbstractAccessToken.php:98-110 | a call that finds a truthy cached or in-process token falls off the end and returns null | `setToken('abc')` then `getToken()` | return the token it resolved, as the `@return string` annotation says | high; not executed | `Credentials.SetThenGetReturnsNull` | `Credentials.CorrectedSetThenGetReturnsToken` |

`AccessToken.GetToken` keeps the as-written behaviour (null on a hit). The corrected behaviour
is the function `Credentials.TokenRunCorrected`. The pipeline's `Upload` is as written, and
`UploadCorrected` sends the list.

## Left out

- The HTTP client (`setClient`, `getClient` and its lazy construction) is not modelled,
  because it is a foreign library. The model ends with the `Dispatch` handed to it.
- HttpPipeline.Http.Request: does not model the response the client returns, nor the transport
  errors it propagates, because the client is not modelled.
- The handler stack's own base handler and built-in middlewares are not modelled. A stack is
  the list of layers pushed onto it. Guzzle's check that a pushed default handler is callable
  is not modelled either.
- The debug logging of the request and the response is not modelled: it is I/O with no effect
  on behaviour.
- Opening upload files is not modelled: a part's contents are a handle named by its path, and
  a failing open is not modelled.
- The filesystem cache backend is a `Cache` object whose initial entries are the `tempDir`
  constant. Expiry of entries after their TTL is not modelled, nor is the result of `save`.
- `getHttp` and `setHttp` are not modelled: they are plain dependency wiring.
- The class-level default option set is a `StaticDefaults` object handed to each `Http`.
  Nothing in the model makes that store unique: instances built over two different stores do
  not share defaults. Also, `getHandler` reads `static::$defaults` (src/Http.php:194) while
  `setDefaultOptions`, `getDefaultOptions` and `request` read `self::$defaults` (lines 44, 54,
  213). The model gives both the same store, so a subclass that redeclares `$defaults` is not
  modelled.
- Concurrency is not modelled: the code has none.
- PHP 8 throws a TypeError where PHP 7 returns null from `array_merge` with a non-array
  argument. The model follows PHP 7. Under PHP 8, `upload` fails instead of sending.
- Option arrays are string-keyed maps. The order of their keys, integer keys, and
  `array_merge`'s renumbering of integer keys are not modelled. Only the middleware list and
  the part list keep their order. The cURL option number is written as the string key "113".
- Floats, and arrays or objects as cache values or reply fields, are not modelled. The server
  reply is always an array of scalars.
- PHP's parameter type checks (`callable`, `array`) are not modelled. They are the types of
  the Dafny parameters instead.
- Upper-casing covers ASCII letters only, as PHP's default locale does.
