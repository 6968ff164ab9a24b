/** The Mokeskin client (scrapy_object_cache/mokeskin.py): URL building and
    the reading of the store's status codes for get, post and exists. */
module Mokeskin {
  import opened Wrappers
  import opened Strings
  import opened Http

  /** `urllib.parse.urljoin`, which is not part of this model. */
  type UrlJoin = (string, string) -> string

  /** The route of the store's item collection. */
  const ItemsRoute := "items"

  /** Which client operation raised. */
  datatype Op = GetOp | PostOp | ExistsOp

  /** What the client raises. */
  datatype ApiError =
    | StoreError(op: Op, url: string, code: int)  // MokeskinAPIError, carrying the URL and status
    | NoDataField(url: string)                    // `resp.json()['data']` on a body without "data"
    | UnexpectedKeyword(name: string)             // TypeError: a keyword argument the callee lacks

  /** `get_api_url`: a URL followed by its query string. */
  function GetApiUrl(url: string, qry: string): (r: string)
    ensures |r| == |url| + 1 + |qry|
    ensures r[..|url|] == url && r[|url|] == '?' && r[|url| + 1..] == qry
  {
    url + "?" + qry
  }

  /** The fixed query string carrying the namespace tag and the credential. */
  function QueryString(tag: string, apiKey: string): string {
    "tag=" + tag + "&api_key=" + apiKey
  }

  /** `urljoin(host, 'items')`, then `/<key>` when a key is given, then the query string. */
  function StoreUrl(urljoin: UrlJoin, host: string, tag: string, apiKey: string, key: Option<string>): string {
    var base := urljoin(host, ItemsRoute);
    var path := if key.Some? then base + "/" + key.value else base;
    GetApiUrl(path, QueryString(tag, apiKey))
  }

  /** The part of a URL before its first '?' is the URL given to get_api_url,
      the rest is the query string, when that URL holds no '?'. */
  lemma GetApiUrlSplits(url: string, qry: string)
    requires '?' !in url
    ensures SplitFirst(GetApiUrl(url, qry), '?') == Some((url, qry))
  {
    SplitFirstOfJoin(url, '?', qry);
  }

  /** The query string gives back the tag and the credential, split at the first '&',
      when the tag holds no '&'. */
  lemma QueryStringSplits(tag: string, apiKey: string)
    requires '&' !in tag
    ensures SplitFirst(QueryString(tag, apiKey), '&') == Some(("tag=" + tag, "api_key=" + apiKey))
  {
    assert QueryString(tag, apiKey) == ("tag=" + tag) + ['&'] + ("api_key=" + apiKey);
    SplitFirstOfJoin("tag=" + tag, '&', "api_key=" + apiKey);
  }

  /** A keyed URL is the keyless URL's path followed by "/" + key, with the same
      query string, when the joined base and the key hold no '?'. */
  lemma {:induction false} KeyedUrlExtendsKeylessUrl(urljoin: UrlJoin, host: string, tag: string, apiKey: string, key: string)
    requires '?' !in urljoin(host, ItemsRoute) && '?' !in key
    ensures var keyless := SplitFirst(StoreUrl(urljoin, host, tag, apiKey, None), '?');
      keyless.Some? &&
      SplitFirst(StoreUrl(urljoin, host, tag, apiKey, Some(key)), '?')
        == Some((keyless.value.0 + "/" + key, keyless.value.1))
  {
    var base := urljoin(host, ItemsRoute);
    GetApiUrlSplits(base, QueryString(tag, apiKey));
    GetApiUrlSplits(base + "/" + key, QueryString(tag, apiKey));
  }

  /** Distinct keys address distinct items: the keyed URL determines the key. */
  lemma {:induction false} KeyedUrlInjective(urljoin: UrlJoin, host: string, tag: string, apiKey: string, k1: string, k2: string)
    requires StoreUrl(urljoin, host, tag, apiKey, Some(k1)) == StoreUrl(urljoin, host, tag, apiKey, Some(k2))
    ensures k1 == k2
  {
    var base := urljoin(host, ItemsRoute);
    var q := "?" + QueryString(tag, apiKey);
    var u1 := base + "/" + k1 + q;
    var u2 := base + "/" + k2 + q;
    assert u1 == StoreUrl(urljoin, host, tag, apiKey, Some(k1));
    assert u2 == StoreUrl(urljoin, host, tag, apiKey, Some(k2));
    assert |k1| == |k2|;
    assert u1[|base| + 1..|base| + 1 + |k1|] == k1;
    assert u2[|base| + 1..|base| + 1 + |k2|] == k2;
  }

  /** A keyed URL never addresses the collection: it differs from the keyless URL
      where the keyless one has its '?'. */
  lemma KeyedUrlIsNotKeylessUrl(urljoin: UrlJoin, host: string, tag: string, apiKey: string, key: string)
    ensures StoreUrl(urljoin, host, tag, apiKey, Some(key)) != StoreUrl(urljoin, host, tag, apiKey, None)
  {
  }

  /** Python's binding of keyword arguments to `_mokeskin_url(self, key=None)`:
      no argument leaves the key None, `key=k` binds it, and any other
      name raises a TypeError before the method runs. */
  function BindKeyParameter(kwargs: seq<(string, string)>): (r: Result<Option<string>, ApiError>)
    ensures r.Success? <==> kwargs == [] || (|kwargs| == 1 && kwargs[0].0 == "key")
    ensures r == Success(None) <==> kwargs == []
  {
    if kwargs == [] then Success(None)
    else if kwargs[0].0 != "key" then Failure(UnexpectedKeyword(kwargs[0].0))
    else if |kwargs| > 1 then Failure(UnexpectedKeyword(kwargs[1].0))
    else Success(Some(kwargs[0].1))
  }

  /** `key=k` binds the key to `k`: the call the client evidently intends. */
  lemma KeywordKeyBindsKey(k: string)
    ensures BindKeyParameter([("key", k)]) == Success(Some(k))
  {
  }

  /** MokeskinAPI.get's reading of the store's answer. */
  function ClassifyGet(url: string, resp: Response): (r: Result<Option<Json>, ApiError>)
    ensures r == Success(None) <==> resp.status == 404
    ensures r == Failure(StoreError(GetOp, url, resp.status)) <==> resp.status != 404 && resp.status != 200
    ensures r.Success? && r.value.Some? <==> resp.status == 200 && DataField(resp.body).Some?
    ensures r.Success? && r.value.Some? ==> r.value == DataField(resp.body)
    ensures r == Failure(NoDataField(url)) <==> resp.status == 200 && DataField(resp.body).None?
  {
    if resp.status == 404 then Success(None)
    else if resp.status != 200 then Failure(StoreError(GetOp, url, resp.status))
    else match DataField(resp.body)
      case Some(d) => Success(Some(d))
      case None => Failure(NoDataField(url))
  }

  /** MokeskinAPI.exists's reading of the store's answer. */
  function ClassifyExists(url: string, resp: Response): (r: Result<bool, ApiError>)
    ensures r == Success(false) <==> resp.status == 404
    ensures r == Success(true) <==> resp.status == 200
    ensures r.Failure? <==> resp.status != 404 && resp.status != 200
    ensures r.Failure? ==> r.error == StoreError(ExistsOp, url, resp.status)
  {
    if resp.status == 404 then Success(false)
    else if resp.status != 200 then Failure(StoreError(ExistsOp, url, resp.status))
    else Success(true)
  }

  /** exists and get fail with a store error on exactly the same statuses, and
      exists answers false exactly when get answers "nothing stored". */
  lemma ExistsAgreesWithGet(existsUrl: string, getUrl: string, resp: Response)
    ensures ClassifyExists(existsUrl, resp) == Success(false) <==> ClassifyGet(getUrl, resp) == Success(None)
    ensures ClassifyExists(existsUrl, resp) == Success(true) <==>
      (ClassifyGet(getUrl, resp).Success? && ClassifyGet(getUrl, resp).value.Some?) ||
      ClassifyGet(getUrl, resp) == Failure(NoDataField(getUrl))
    ensures ClassifyExists(existsUrl, resp).Failure? <==>
      ClassifyGet(getUrl, resp).Failure? && ClassifyGet(getUrl, resp).error.StoreError?
  {
  }

  /** The client: the store's coordinates and default TTL, set once. */
  class MokeskinAPI {
    const host: string
    const apiKey: string
    const tagName: string
    const ttl: Option<int>

    constructor (host: string, apiKey: string, tagName: string, ttl: Option<int>)
      ensures this.host == host && this.apiKey == apiKey
      ensures this.tagName == tagName && this.ttl == ttl
    {
      this.host := host;
      this.apiKey := apiKey;
      this.tagName := tagName;
      this.ttl := ttl;
    }

    /** `_mokeskin_url`: the collection URL, or the URL of one item when a key is given. */
    function MokeskinUrl(urljoin: UrlJoin, key: Option<string>): (url: string)
      ensures var base := urljoin(host, ItemsRoute); var q := QueryString(tagName, apiKey);
        url == if key.Some? then base + "/" + key.value + "?" + q else base + "?" + q
    {
      StoreUrl(urljoin, host, tagName, apiKey, key)
    }

    /** `get`: 404 means nothing is stored, any other status but 200 raises,
        and 200 gives the body's "data". */
    function Get(urljoin: UrlJoin, key: string, store: Store): (r: Result<Option<Json>, ApiError>)
      ensures var url := MokeskinUrl(urljoin, Some(key));
        var resp := store(HttpRequest(GET, url, map[]));
        (r == Success(None) <==> resp.status == 404) &&
        (r == Failure(StoreError(GetOp, url, resp.status)) <==> resp.status != 404 && resp.status != 200) &&
        (r.Success? && r.value.Some? <==> resp.status == 200 && DataField(resp.body).Some?) &&
        (r.Success? && r.value.Some? ==> r.value == DataField(resp.body)) &&
        (r == Failure(NoDataField(url)) <==> resp.status == 200 && DataField(resp.body).None?)
    {
      var url := MokeskinUrl(urljoin, Some(key));
      ClassifyGet(url, store(HttpRequest(GET, url, map[])))
    }

    /** `get` as written: it passes `item=key`, which `_mokeskin_url` does not accept. */
    function GetAsWritten(urljoin: UrlJoin, key: string, store: Store): (r: Result<Option<Json>, ApiError>)
      ensures r == Failure(UnexpectedKeyword("item"))
    {
      match BindKeyParameter([("item", key)])
      case Failure(e) => Failure(e)
      case Success(k) =>
        var url := MokeskinUrl(urljoin, k);
        ClassifyGet(url, store(HttpRequest(GET, url, map[])))
    }

    /** The URL `exists` queries: the item URL with `&exists=1` appended. */
    function ExistsUrl(urljoin: UrlJoin, key: string): string {
      MokeskinUrl(urljoin, Some(key)) + "&exists=1"
    }

    /** `exists`: 404 means absent, 200 present, and any other status raises. */
    function Exists(urljoin: UrlJoin, key: string, store: Store): (r: Result<bool, ApiError>)
      ensures var url := ExistsUrl(urljoin, key);
        var resp := store(HttpRequest(GET, url, map[]));
        (r == Success(false) <==> resp.status == 404) &&
        (r == Success(true) <==> resp.status == 200) &&
        (r.Failure? <==> resp.status != 404 && resp.status != 200) &&
        (r.Failure? ==> r.error == StoreError(ExistsOp, url, resp.status))
    {
      var url := ExistsUrl(urljoin, key);
      ClassifyExists(url, store(HttpRequest(GET, url, map[])))
    }

    /** `exists` as written: it passes `item=key`, which `_mokeskin_url` does not accept. */
    function ExistsAsWritten(urljoin: UrlJoin, key: string, store: Store): (r: Result<bool, ApiError>)
      ensures r == Failure(UnexpectedKeyword("item"))
    {
      match BindKeyParameter([("item", key)])
      case Failure(e) => Failure(e)
      case Success(k) =>
        var url := MokeskinUrl(urljoin, k) + "&exists=1";
        ClassifyExists(url, store(HttpRequest(GET, url, map[])))
    }

    /** The item `exists` asks about is the item `get` reads: the two URLs share
        their path, and the exists query is the get query plus `&exists=1`. */
    lemma ExistsAddressesGetItem(urljoin: UrlJoin, key: string)
      requires '?' !in urljoin(host, ItemsRoute) && '?' !in key
      ensures var g := SplitFirst(MokeskinUrl(urljoin, Some(key)), '?');
        var e := SplitFirst(ExistsUrl(urljoin, key), '?');
        g.Some? && e.Some? && e.value.0 == g.value.0 && e.value.1 == g.value.1 + "&exists=1"
    {
      var path := urljoin(host, ItemsRoute) + "/" + key;
      var q := QueryString(tagName, apiKey);
      assert ExistsUrl(urljoin, key) == path + ['?'] + (q + "&exists=1");
      SplitFirstOfJoin(path, '?', q);
      SplitFirstOfJoin(path, '?', q + "&exists=1");
    }

    /** `post`: sends `{key, data, exp?}` to the collection URL, where `exp` is the
        call's TTL, else the client's TTL, else absent; only 201 is success. */
    method Post(urljoin: UrlJoin, key: string, data: Json, ttl: Option<int>, store: Store)
      returns (sent: HttpRequest, r: Result<(), ApiError>)
      ensures sent.verb == POST && sent.url == MokeskinUrl(urljoin, None)
      ensures sent.json.Keys == {"key", "data"} + (if ttl.Some? || this.ttl.Some? then {"exp"} else {})
      ensures sent.json["key"] == JString(key) && sent.json["data"] == data
      ensures ttl.Some? ==> sent.json["exp"] == JInt(ttl.value)
      ensures ttl.None? && this.ttl.Some? ==> sent.json["exp"] == JInt(this.ttl.value)
      ensures r.Success? <==> store(sent).status == 201
      ensures r.Failure? ==> r.error == StoreError(PostOp, sent.url, store(sent).status)
    {
      var url := MokeskinUrl(urljoin, None);
      var fullData: map<string, Json> := map[];
      fullData := fullData["key" := JString(key)];
      fullData := fullData["data" := data];
      if ttl.Some? {
        fullData := fullData["exp" := JInt(ttl.value)];
      } else if this.ttl.Some? {
        fullData := fullData["exp" := JInt(this.ttl.value)];
      }
      sent := HttpRequest(POST, url, fullData);
      var resp := store(sent);
      if resp.status != 201 {
        r := Failure(StoreError(PostOp, url, resp.status));
      } else {
        r := Success(());
      }
    }
  }
}
