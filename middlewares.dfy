/** The middleware helpers (scrapy_object_cache/middlewares.py): cache-key
    derivation, TTL and enable-flag resolution, the store URL built from the
    spider's settings, and the reading of GET and POST answers. */
module Middlewares {
  import opened Wrappers
  import opened Strings
  import opened Http
  import Mokeskin

  /** Default tag name for stored data. */
  const TagName := "cm_spiders"

  /** Default TTL: six hours, in seconds. */
  const DefaultTtl := 60 * 60 * 6

  /** `hashlib.md5(...).hexdigest()`, which is not part of this model. */
  type Md5Hex = string -> string

  /** A crawl request: its Scrapy fingerprint (`request_fingerprint(request)`)
      and the entries of `request.meta` the cache reads. */
  datatype Request = Request(fingerprint: string, meta: Meta)

  /** `request.meta.get('MOKESKIN_TTL')` and `request.meta.get('cache_object_enabled')`. */
  datatype Meta = Meta(ttl: Option<int>, cacheObjectEnabled: Option<bool>)

  /** A spider attribute that may name a key hook: absent, present but not
      callable, or a callable from a request to a key or None. */
  datatype KeyHook = Missing | NotCallable | Callable(hook: Request -> Option<string>)

  /** The spider settings the cache reads; Scrapy's `settings.get` treats a None value as absent. */
  datatype Settings = Settings(host: Option<string>, apiKey: Option<string>, tagName: Option<string>, ttl: Option<int>)

  /** The parts of a spider the cache reads. */
  datatype Spider = Spider(
    name: string,
    settings: Settings,
    httpcacheGetRequestKey: KeyHook,
    getRequestKey: KeyHook,
    cacheObjectEnabled: Option<bool>)

  /** What the spider middleware raises. */
  datatype MiddlewareError =
    | MissingHost          // MOKESKIN_HOST is not set
    | MissingApiKey        // MOKESKIN_API_KEY is not set
    | MissingData(url: string)  // `resp.json()['data']` on a body without "data"

  /** The outcome of a POST the middleware does not raise on: stored, or an error logged. */
  datatype PostReport = Stored | Logged(url: string, code: int)

  // ---------------------------------------------------------------- key derivation

  /** The hook key derivation calls, in priority order: `get_request_key` when
      callable, else `httpcache_get_request_key` when callable, else none. */
  function SelectedHook(spider: Spider): Option<Request -> Option<string>> {
    if spider.getRequestKey.Callable? then Some(spider.getRequestKey.hook)
    else if spider.httpcacheGetRequestKey.Callable? then Some(spider.httpcacheGetRequestKey.hook)
    else None
  }

  /** What the selected hook answers for this request; None when there is no hook. */
  function HookAnswer(spider: Spider, request: Request): Option<string> {
    match SelectedHook(spider)
    case Some(h) => h(request)
    case None => None
  }

  /** The per-request part of the key: the hook's answer when it gives one, else the fingerprint. */
  function RequestIdentity(spider: Spider, request: Request): string {
    HookAnswer(spider, request).GetOr(request.fingerprint)
  }

  /** The cache key: the spider's name digest, a colon, then the request identity. */
  function SpiderRequestKey(md5Hex: Md5Hex, spider: Spider, request: Request): string {
    md5Hex(spider.name) + ":" + RequestIdentity(spider, request)
  }

  /** `get_spider_request_key`: start from the fingerprint, let each callable hook
      attribute in turn replace the callback, and let the callback's non-None answer
      replace the fingerprint. */
  method GetSpiderRequestKey(md5Hex: Md5Hex, spider: Spider, request: Request) returns (key: string)
    ensures key == SpiderRequestKey(md5Hex, spider, request)
  {
    var requestKey := request.fingerprint;
    var callback: Option<Request -> Option<string>> := None;
    if spider.httpcacheGetRequestKey.Callable? {
      callback := Some(spider.httpcacheGetRequestKey.hook);
    }
    if spider.getRequestKey.Callable? {
      callback := Some(spider.getRequestKey.hook);
    }
    if callback.Some? {
      var k := callback.value(request);
      if k.Some? {
        requestKey := k.value;
      }
    }
    key := md5Hex(spider.name) + ":" + requestKey;
  }

  /** A hex digest: lower-case hexadecimal digits only, so never a colon. */
  predicate IsHexDigest(d: string) {
    forall i :: 0 <= i < |d| ==> d[i] in "0123456789abcdef"
  }

  /** The key splits at its first colon into the name digest and the request identity. */
  lemma KeySplitsIntoDigestAndIdentity(md5Hex: Md5Hex, spider: Spider, request: Request)
    requires IsHexDigest(md5Hex(spider.name))
    ensures SplitFirst(SpiderRequestKey(md5Hex, spider, request), ':')
      == Some((md5Hex(spider.name), RequestIdentity(spider, request)))
  {
    var d := md5Hex(spider.name);
    assert ':' !in d;
    SplitFirstOfJoin(d, ':', RequestIdentity(spider, request));
  }

  /** Spiders whose names hash differently never share a key, whatever their requests. */
  lemma DistinctDigestsNeverShareKeys(md5Hex: Md5Hex, s1: Spider, r1: Request, s2: Spider, r2: Request)
    requires IsHexDigest(md5Hex(s1.name)) && IsHexDigest(md5Hex(s2.name))
    requires md5Hex(s1.name) != md5Hex(s2.name)
    ensures SpiderRequestKey(md5Hex, s1, r1) != SpiderRequestKey(md5Hex, s2, r2)
  {
    KeySplitsIntoDigestAndIdentity(md5Hex, s1, r1);
    KeySplitsIntoDigestAndIdentity(md5Hex, s2, r2);
  }

  /** Without a callable hook, or when the hook answers None, the identity is the fingerprint;
      when the hook answers a key, that key replaces the fingerprint. */
  lemma IdentityIsFingerprintUnlessHookAnswers(spider: Spider, request: Request)
    ensures !spider.getRequestKey.Callable? && !spider.httpcacheGetRequestKey.Callable? ==>
      RequestIdentity(spider, request) == request.fingerprint
    ensures SelectedHook(spider).Some? && SelectedHook(spider).value(request).None? ==>
      RequestIdentity(spider, request) == request.fingerprint
    ensures SelectedHook(spider).Some? && SelectedHook(spider).value(request).Some? ==>
      RequestIdentity(spider, request) == SelectedHook(spider).value(request).value
  {
  }

  /** When `get_request_key` is callable, `httpcache_get_request_key` has no effect on
      the key, even when `get_request_key` answers None. */
  lemma GetRequestKeyOverridesHttpcacheHook(md5Hex: Md5Hex, spider: Spider, request: Request, other: KeyHook)
    requires spider.getRequestKey.Callable?
    ensures SpiderRequestKey(md5Hex, spider, request)
      == SpiderRequestKey(md5Hex, spider.(httpcacheGetRequestKey := other), request)
    ensures RequestIdentity(spider, request) == spider.getRequestKey.hook(request).GetOr(request.fingerprint)
  {
  }

  /** A hook attribute that is not callable is treated exactly as a missing one. */
  lemma NonCallableHookIsIgnored(md5Hex: Md5Hex, spider: Spider, request: Request)
    ensures SpiderRequestKey(md5Hex, spider.(httpcacheGetRequestKey := NotCallable), request)
      == SpiderRequestKey(md5Hex, spider.(httpcacheGetRequestKey := Missing), request)
    ensures SpiderRequestKey(md5Hex, spider.(getRequestKey := NotCallable), request)
      == SpiderRequestKey(md5Hex, spider.(getRequestKey := Missing), request)
  {
  }

  /** The key depends on nothing but the spider name, the fingerprint and the hook's answer. */
  lemma KeyIsDeterministic(md5Hex: Md5Hex, s1: Spider, r1: Request, s2: Spider, r2: Request)
    requires s1.name == s2.name && r1.fingerprint == r2.fingerprint
    requires HookAnswer(s1, r1) == HookAnswer(s2, r2)
    ensures SpiderRequestKey(md5Hex, s1, r1) == SpiderRequestKey(md5Hex, s2, r2)
  {
  }

  // ---------------------------------------------------------------- TTL and enable flag

  /** `get_spider_request_ttl`: the request's MOKESKIN_TTL, else the settings' MOKESKIN_TTL,
      else the six-hour default. */
  function SpiderRequestTtl(spider: Spider, request: Request): (ttl: int)
    ensures request.meta.ttl.Some? ==> ttl == request.meta.ttl.value
    ensures request.meta.ttl.None? && spider.settings.ttl.Some? ==> ttl == spider.settings.ttl.value
    ensures request.meta.ttl.None? && spider.settings.ttl.None? ==> ttl == 21600
  {
    if request.meta.ttl.Some? then request.meta.ttl.value
    else if spider.settings.ttl.Some? then spider.settings.ttl.value
    else DefaultTtl
  }

  /** The TTL is the first configured link of the chain meta, settings, default. */
  lemma TtlIsFirstConfigured(spider: Spider, request: Request)
    ensures Some(SpiderRequestTtl(spider, request))
      == FirstSome([request.meta.ttl, spider.settings.ttl, Some(21600)])
  {
    var chain := [request.meta.ttl, spider.settings.ttl, Some(21600)];
    if request.meta.ttl.Some? {
      FirstSomeStopsAtPresent(chain, 0);
    } else if spider.settings.ttl.Some? {
      FirstSomeStopsAtPresent(chain, 1);
    } else {
      FirstSomeStopsAtPresent(chain, 2);
    }
  }

  /** `ScrapyObjectDownloadMiddleware._is_enabled`: the request's flag, else the spider's
      attribute, else disabled. */
  function IsEnabled(request: Request, spider: Spider): (enabled: bool)
    ensures request.meta.cacheObjectEnabled.Some? ==> enabled == request.meta.cacheObjectEnabled.value
    ensures request.meta.cacheObjectEnabled.None? && spider.cacheObjectEnabled.Some? ==>
      enabled == spider.cacheObjectEnabled.value
    ensures request.meta.cacheObjectEnabled.None? && spider.cacheObjectEnabled.None? ==> !enabled
  {
    if request.meta.cacheObjectEnabled.Some? then request.meta.cacheObjectEnabled.value
    else if spider.cacheObjectEnabled.Some? then spider.cacheObjectEnabled.value
    else false
  }

  /** The flag is the first configured link of the chain meta, spider attribute, false;
      with neither set, caching is off. */
  lemma EnabledIsFirstConfigured(request: Request, spider: Spider)
    ensures IsEnabled(request, spider)
      == FirstSome([request.meta.cacheObjectEnabled, spider.cacheObjectEnabled]).GetOr(false)
    ensures request.meta.cacheObjectEnabled.None? && spider.cacheObjectEnabled.None? ==>
      !IsEnabled(request, spider)
  {
  }

  // ---------------------------------------------------------------- store URL

  /** `ScrapyObjectSpiderMiddleware._mokeskin_url`: raises when the host or the
      credential is not set (the host is checked first); otherwise the store URL
      with the settings' tag, `cm_spiders` by default. */
  function SpiderMokeskinUrl(urljoin: Mokeskin.UrlJoin, spider: Spider, item: Option<string>)
    : (r: Result<string, MiddlewareError>)
    ensures r == Failure(MissingHost) <==> spider.settings.host.None?
    ensures r == Failure(MissingApiKey) <==> spider.settings.host.Some? && spider.settings.apiKey.None?
    ensures r.Success? <==> spider.settings.host.Some? && spider.settings.apiKey.Some?
    ensures r.Success? ==> r.value == Mokeskin.StoreUrl(urljoin, spider.settings.host.value,
      spider.settings.tagName.GetOr(TagName), spider.settings.apiKey.value, item)
  {
    if spider.settings.host.None? then Failure(MissingHost)
    else if spider.settings.apiKey.None? then Failure(MissingApiKey)
    else
      var tag := spider.settings.tagName.GetOr(TagName);
      Success(Mokeskin.StoreUrl(urljoin, spider.settings.host.value, tag, spider.settings.apiKey.value, item))
  }

  /** The middleware addresses the same URLs as a client built from the spider's settings. */
  lemma SpiderUrlMatchesClientUrl(urljoin: Mokeskin.UrlJoin, spider: Spider, api: Mokeskin.MokeskinAPI, item: Option<string>)
    requires spider.settings.host == Some(api.host) && spider.settings.apiKey == Some(api.apiKey)
    requires api.tagName == spider.settings.tagName.GetOr(TagName)
    ensures SpiderMokeskinUrl(urljoin, spider, item) == Success(api.MokeskinUrl(urljoin, item))
  {
  }

  // ---------------------------------------------------------------- GET and POST

  /** `_mokeskin_get_data`'s reading of the store's answer: every status but 200
      is logged and read as "nothing stored". */
  function ReadGetResponse(url: string, resp: Response): (r: Result<Option<Json>, MiddlewareError>)
    ensures r == Success(None) <==> resp.status != 200
    ensures r.Success? && r.value.Some? <==> resp.status == 200 && DataField(resp.body).Some?
    ensures r.Success? && r.value.Some? ==> r.value == DataField(resp.body)
    ensures r.Failure? <==> resp.status == 200 && DataField(resp.body).None?
    ensures r.Failure? ==> r.error == MissingData(url)
  {
    if resp.status != 200 then Success(None)
    else match DataField(resp.body)
      case Some(d) => Success(Some(d))
      case None => Failure(MissingData(url))
  }

  /** The middleware's GET is the client's `get` made fail-open: where the client raises
      a store error the middleware reads "nothing stored", and elsewhere they agree. */
  lemma ReadGetResponseFailsOpen(url: string, resp: Response)
    ensures var c := Mokeskin.ClassifyGet(url, resp);
      (c.Success? ==> ReadGetResponse(url, resp) == Success(c.value)) &&
      (c.Failure? && c.error.StoreError? ==> ReadGetResponse(url, resp) == Success(None)) &&
      (c == Failure(Mokeskin.NoDataField(url)) <==> ReadGetResponse(url, resp) == Failure(MissingData(url)))
  {
  }

  /** `_mokeskin_get_data`: derives the key, reads its item URL, and returns the
      stored data on 200 and None on any other status. */
  method GetData(md5Hex: Md5Hex, urljoin: Mokeskin.UrlJoin, spider: Spider, request: Request, store: Store)
    returns (sent: Option<HttpRequest>, r: Result<Option<Json>, MiddlewareError>)
    ensures var u := SpiderMokeskinUrl(urljoin, spider, Some(SpiderRequestKey(md5Hex, spider, request)));
      if u.Failure? then sent.None? && r == Failure(u.error)
      else
        sent == Some(HttpRequest(GET, u.value, map[])) &&
        var resp := store(sent.value);
        (r == Success(None) <==> resp.status != 200) &&
        (r.Success? && r.value.Some? <==> resp.status == 200 && DataField(resp.body).Some?) &&
        (r.Success? && r.value.Some? ==> r.value == DataField(resp.body)) &&
        (r.Failure? <==> resp.status == 200 && DataField(resp.body).None?) &&
        (r.Failure? ==> r.error == MissingData(u.value))
  {
    var key := GetSpiderRequestKey(md5Hex, spider, request);
    var u := SpiderMokeskinUrl(urljoin, spider, Some(key));
    if u.Failure? {
      sent, r := None, Failure(u.error);
      return;
    }
    var req := HttpRequest(GET, u.value, map[]);
    sent := Some(req);
    r := ReadGetResponse(u.value, store(req));
  }

  /** `_mokeskin_post_data`: posts `{key, data, exp}` to the collection URL, where
      `key` is the derived cache key and `exp` the resolved TTL (always present);
      a status other than 201 is logged, not raised. */
  method PostData(md5Hex: Md5Hex, urljoin: Mokeskin.UrlJoin, spider: Spider, request: Request, data: Json, store: Store)
    returns (sent: Option<HttpRequest>, r: Result<PostReport, MiddlewareError>)
    ensures var u := SpiderMokeskinUrl(urljoin, spider, None);
      if u.Failure? then sent.None? && r == Failure(u.error)
      else
        sent.Some? && sent.value.verb == POST && sent.value.url == u.value &&
        sent.value.json.Keys == {"key", "data", "exp"} &&
        sent.value.json["key"] == JString(SpiderRequestKey(md5Hex, spider, request)) &&
        sent.value.json["data"] == data &&
        sent.value.json["exp"] == JInt(SpiderRequestTtl(spider, request)) &&
        (r == Success(Stored) <==> store(sent.value).status == 201) &&
        (r.Success? && r.value.Logged? ==> r.value == Logged(u.value, store(sent.value).status)) &&
        r.Success?
  {
    var u := SpiderMokeskinUrl(urljoin, spider, None);
    if u.Failure? {
      sent, r := None, Failure(u.error);
      return;
    }
    var fullData: map<string, Json> := map[];
    var key := GetSpiderRequestKey(md5Hex, spider, request);
    fullData := fullData["key" := JString(key)];
    fullData := fullData["data" := data];
    fullData := fullData["exp" := JInt(SpiderRequestTtl(spider, request))];
    var req := HttpRequest(POST, u.value, fullData);
    sent := Some(req);
    var resp := store(req);
    if resp.status != 201 {
      r := Success(Logged(u.value, resp.status));
    } else {
      r := Success(Stored);
    }
  }
}
