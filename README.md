# scrapy-object-cache: the Mokeskin cache layer in Dafny

This project models the decision and string-building layer of scrapy-object-cache. That layer sits in front of Mokeskin, a remote key/value HTTP store. It covers:

- **Cache-key derivation** (`get_spider_request_key`). The key is the md5 hex digest of the spider's name, a colon, and then the request identity. The identity is Scrapy's request fingerprint unless a callable key hook on the spider returns a non-None key.
- **TTL and enable-flag resolution.** The TTL comes from the request meta, else the spider settings, else 21600 s. The `cache_object_enabled` flag comes from the request meta, else the spider attribute, else `False`.
- **Store URLs and POST bodies.** The URL is `urljoin(host, 'items')`, then an optional `/<key>`, then `?tag=<tag>&api_key=<key>`. The middleware additionally refuses to build a URL when the host or the credential is missing, and its tag defaults to `cm_spiders`.
- **Status-code classification.** This covers the client's `get`, `exists` and `post`, and the middleware's fail-open `_mokeskin_get_data` and log-only `_mokeskin_post_data`.

Modules follow the source files:

- `Mokeskin` (mokeskin.py) holds the `MokeskinAPI` class, whose configuration is set by its constructor and never changed afterwards, and the URL helpers.
- `Middlewares` (middlewares.py) holds the rest.
- `Wrappers`, `Strings` and `Http` are small helper modules:
  - `Option`/`Result` and the fallback chain `FirstSome`;
  - splitting at the first separator;
  - JSON values and HTTP requests and responses.

Foreign calls are parameters:

- `md5Hex` stands for `hashlib.md5(...).hexdigest()`.
- `urljoin` stands for `urllib.parse.urljoin`.
- `store` is a function from the HTTP request sent to the response the store returns.

`request_fingerprint(request)` is a field of the modelled request. The middleware's own `get_api_url` (scrapy_object_cache/middlewares.py:41-42) is textually the same as the client's. Both are modelled by the single function `Mokeskin.GetApiUrl`.

Notes on the code:

- The default tag is `cm_spiders`.
- `exists` queries the item URL with `&exists=1` appended.
- `get_request_key` wins because it is assigned after `httpcache_get_request_key`.
- `_mokeskin_post_data` always sends `exp`.

## Model

| member | source | states |
|---|---|---|
| `Wrappers.FirstSome` | scrapy_object_cache/middlewares.py:45-49 | The value of a fallback chain is its first present link; it is absent exactly when every link is absent. |
| `Mokeskin.GetApiUrl` | scrapy_object_cache/mokeskin.py:5-6 | The result is exactly `url`, then '?', then `qry`. The identical helper at scrapy_object_cache/middlewares.py:41-42 is modelled by this same function. |
| `Mokeskin.GetApiUrlSplits` | scrapy_object_cache/mokeskin.py:5-6 | `get_api_url(url, qry)` splits at its first '?' back into `url` and `qry` when `url` has no '?'. |
| `Mokeskin.QueryStringSplits` | scrapy_object_cache/mokeskin.py:24 | The query string splits at its first '&' into `tag=<tag>` and `api_key=<key>` when the tag has no '&'. |
| `Mokeskin.KeyedUrlExtendsKeylessUrl` | scrapy_object_cache/mokeskin.py:22-28 | When neither the joined base nor the key contains '?', the URL for a key has the keyless URL's path followed by `/<key>`, and the same query string. |
| `Mokeskin.KeyedUrlInjective` | scrapy_object_cache/mokeskin.py:25-28 | Two keys with the same item URL under one configuration are equal. |
| `Mokeskin.KeyedUrlIsNotKeylessUrl` | scrapy_object_cache/mokeskin.py:25-28 | An item URL never equals the collection URL that `post` uses. |
| `Mokeskin.BindKeyParameter` | scrapy_object_cache/mokeskin.py:22 | Keyword binding to `_mokeskin_url(self, key=None)` succeeds exactly for no argument (key None) or a single `key=`; any other name raises. |
| `Mokeskin.KeywordKeyBindsKey` | scrapy_object_cache/mokeskin.py:22 | The intended call `key=k` binds the key to `k`. |
| `Mokeskin.ClassifyGet` | scrapy_object_cache/mokeskin.py:33-39 | Reading a GET answer gives none exactly on 404 and a store error (URL, status) exactly on statuses other than 200 and 404. On 200 it gives the body's "data", or a missing-data error when the body has none. |
| `Mokeskin.ClassifyExists` | scrapy_object_cache/mokeskin.py:60-66 | Reading an exists answer gives false exactly on 404 and true exactly on 200; every other status is a store error carrying URL and status. |
| `Mokeskin.ExistsAgreesWithGet` | scrapy_object_cache/mokeskin.py:56-66 | On one response, `exists` gives false exactly when `get` gives none. It gives true exactly when `get` returns data or finds no "data" field. Both raise a store error on the same statuses. |
| `Mokeskin.MokeskinAPI.constructor` | scrapy_object_cache/mokeskin.py:16-20 | Stores host, credential, tag and default TTL as given; the fields are constant afterwards. |
| `Mokeskin.MokeskinAPI.MokeskinUrl` | scrapy_object_cache/mokeskin.py:22-28 | The collection URL is the joined `items` route plus the query string. An item URL inserts `/<key>` before the '?'. |
| `Mokeskin.MokeskinAPI.Get` | scrapy_object_cache/mokeskin.py:30-39 | Requests the item URL. It gives none exactly on 404 and raises a store error (URL, status) exactly on statuses other than 200 and 404. On 200 it gives the body's "data", or raises when the body has none. |
| `Mokeskin.MokeskinAPI.GetAsWritten` | scrapy_object_cache/mokeskin.py:31 | As written, `get` raises the keyword-argument TypeError for every key and every store, before any request. |
| `Mokeskin.MokeskinAPI.Exists` | scrapy_object_cache/mokeskin.py:56-66 | Requests the item URL plus `&exists=1`. It gives false exactly on 404 and true exactly on 200; any other status raises a store error carrying URL and status. |
| `Mokeskin.MokeskinAPI.ExistsAsWritten` | scrapy_object_cache/mokeskin.py:57 | As written, `exists` raises the keyword-argument TypeError for every key and every store. |
| `Mokeskin.MokeskinAPI.ExistsAddressesGetItem` | scrapy_object_cache/mokeskin.py:57-58 | When neither the joined base nor the key contains '?', the `exists` URL has the same path as the `get` URL, and its query is the `get` query plus `&exists=1`. |
| `Mokeskin.MokeskinAPI.Post` | scrapy_object_cache/mokeskin.py:41-54 | POSTs to the collection URL a body with exactly `key`, `data` and, when a TTL resolves, `exp`. `exp` is the call's TTL, else the client's. The call succeeds exactly on 201 and otherwise raises a store error with URL and status. |
| `Middlewares.GetSpiderRequestKey` | scrapy_object_cache/middlewares.py:24-38 | The step-by-step hook reassignment computes the key given by the priority-list definition: digest, ':', then the answer of the first callable of `get_request_key` and `httpcache_get_request_key`, else the fingerprint. |
| `Middlewares.KeySplitsIntoDigestAndIdentity` | scrapy_object_cache/middlewares.py:37-38 | The key splits at its first ':' into the name's hex digest and the request identity. |
| `Middlewares.DistinctDigestsNeverShareKeys` | scrapy_object_cache/middlewares.py:37-38 | Spiders with different name digests never produce the same key, whatever the requests. |
| `Middlewares.IdentityIsFingerprintUnlessHookAnswers` | scrapy_object_cache/middlewares.py:25-36 | With no callable hook, or a hook answering None, the identity is the fingerprint. A hook's non-None answer replaces it. |
| `Middlewares.GetRequestKeyOverridesHttpcacheHook` | scrapy_object_cache/middlewares.py:27-32 | When `get_request_key` is callable, `httpcache_get_request_key` has no effect on the key, even when `get_request_key` answers None. |
| `Middlewares.NonCallableHookIsIgnored` | scrapy_object_cache/middlewares.py:27-32 | A non-callable hook attribute gives the same key as a missing one, for either hook name. |
| `Middlewares.KeyIsDeterministic` | scrapy_object_cache/middlewares.py:24-38 | Equal spider names, fingerprints and hook answers give equal keys. |
| `Middlewares.SpiderRequestTtl` | scrapy_object_cache/middlewares.py:45-49 | The TTL is the request's `MOKESKIN_TTL` when set, else the settings' `MOKESKIN_TTL` when set, else 21600. |
| `Middlewares.TtlIsFirstConfigured` | scrapy_object_cache/middlewares.py:45-49 | The TTL is the first set value of request meta, spider settings and 21600. |
| `Middlewares.EnabledIsFirstConfigured` | scrapy_object_cache/middlewares.py:139-143 | The enable flag is the first set value of request meta and spider attribute, else false. With neither set, caching is off. |
| `Middlewares.IsEnabled` | scrapy_object_cache/middlewares.py:139-143 | The flag is the request's `cache_object_enabled` when set, else the spider's attribute when set, else false. |
| `Middlewares.SpiderMokeskinUrl` | scrapy_object_cache/middlewares.py:54-69 | Raises exactly when the host is missing (checked first) or the credential is missing. Otherwise it gives the store URL with the settings' tag, `cm_spiders` by default. |
| `Middlewares.SpiderUrlMatchesClientUrl` | scrapy_object_cache/middlewares.py:63-69 | The middleware's URL equals the one a `MokeskinAPI` client built from the same host, credential and resolved tag would use. |
| `Middlewares.ReadGetResponse` | scrapy_object_cache/middlewares.py:82-88 | Reading a GET answer gives none exactly on non-200. On 200 it gives the body's "data", and fails with a missing-data error carrying the URL exactly when the body has none. |
| `Middlewares.ReadGetResponseFailsOpen` | scrapy_object_cache/middlewares.py:84-88 | Where the client's `get` raises a store error, the middleware reads "nothing stored". On every other response the two agree. |
| `Middlewares.GetData` | scrapy_object_cache/middlewares.py:71-88 | Configuration errors propagate before any request. Otherwise it GETs the item URL of the derived key and gives none exactly on non-200. On 200 it gives the body's "data", raising a missing-data error with the URL only when the body has none. |
| `Middlewares.PostData` | scrapy_object_cache/middlewares.py:90-111 | Configuration errors propagate before any request. Otherwise it POSTs to the collection URL a body of exactly `key` (the derived key), `data` and `exp` (the resolved TTL). A non-201 status is logged, never raised. |

## Findings

| source | as written | input that shows it | evidently intended | confidence | as-written member | corrected member |
|---|---|---|---|---|---|---|
| scrapy_object_cache/mokeskin.py:31 | `get` calls `self._mokeskin_url(item=key)`, but the parameter is named `key` | any key, e.g. `"abc"`: Python raises TypeError (unexpected keyword argument 'item') before any request | the item URL for `key` | high; not executed | `Mokeskin.MokeskinAPI.GetAsWritten` | `Mokeskin.MokeskinAPI.Get` |
| scrapy_object_cache/mokeskin.py:57 | `exists` calls `self._mokeskin_url(item=key)`, but the parameter is named `key` | any key, e.g. `"abc"`: Python raises TypeError before any request | the item URL for `key`, plus `&exists=1` | high; not executed | `Mokeskin.MokeskinAPI.ExistsAsWritten` | `Mokeskin.MokeskinAPI.Exists` |

## Left out

- HTTP transport and JSON decoding (`requests.get`/`requests.post`, `resp.json()`): network I/O. The store is a function from request to response, and bodies arrive already decoded.
- `hashlib.md5`, `urllib.parse.urljoin` and `request_fingerprint`: foreign library calls. They are parameters or fields. Note also that Python 3's `hashlib.md5` rejects a `str`, so `hashlib.md5(spider.name)` works only for a bytes name. The model hashes the name as given.
- Middlewares.DistinctDigestsNeverShareKeys: stated for spiders whose name digests differ, not for names that differ, because md5 is not modelled and can collide.
- Middlewares.SpiderMokeskinUrl: `ScrapyObjectSpiderMiddlewareError` is not defined in the module, so in Python the missing-setting paths raise a NameError. The model reports them as `MissingHost`/`MissingApiKey`. Either way the call raises before any request.
- Mokeskin.MokeskinAPI.Get: a stored JSON null comes back as `Some(JNull)`. Python returns `None` for it, the same value it returns on 404.
- Values of other types: TTLs are integers, with no `int()` truncation of floats and no string settings. Flags are booleans, with no truthiness of other values and no spider attribute present with value None. Hook answers are strings or None, with no `str()` formatting of other types. Hooks that raise are not modelled.
- URL quoting: the key is inserted into the URL unquoted, as the source does. A key holding '?', '/' or '#' therefore changes which path the store sees. The URL lemmas state their round trips only for a key and joined base without '?'.
- `spider.log`: logging. The model returns a `Logged(url, code)` report instead.
- The `pass` stubs in `ScrapyObjectSpiderMiddleware` (serializers, `_deserialize_mokeskin_response`, both `process_spider_output`): they have no behaviour. The source has no code that writes, replays or encodes cached output: those methods are `pass`.
- `ScrapyObjectDownloadMiddleware.process_request`: unfinished, and it calls an undefined `get_spider_key`.
- Concurrency between writers (the gap between checking existence and posting): the remote store's behaviour is outside this code.
