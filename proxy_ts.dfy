/** The outgoing request headers of `api/proxy.ts` and its handler. This
    variant reads `req.headers` directly: the User-Agent falls back to
    `Mozilla/5.0` only when the header is absent, a `Range` is forwarded only
    when it is a single string, and the Kuwo API request carries no token,
    cookie or client address. */
module ProxyTs {
  import opened JsText
  import opened JsObject
  import opened SearchParams
  import opened KuwoUrl
  import opened CorsFilter
  import opened Proxy
  import opened NodeHeaders

  const FallbackUserAgent: string := "Mozilla/5.0"

  /** `(req.headers['user-agent'] as string) ?? 'Mozilla/5.0'`. The cast does
      nothing at run time, so an array value reaches `fetch`, whose header
      conversion joins it with commas; an empty string is kept. */
  function UserAgent(h: RequestHeaders): (r: string)
    ensures Get(h, "user-agent").None? ==> r == FallbackUserAgent
    ensures Get(h, "user-agent") == Some(Single(r)) || Get(h, "user-agent").None?
            || (Get(h, "user-agent").value.Multiple? && r == Join(Get(h, "user-agent").value.values, ","))
  {
    var v: Option<HeaderValue> := Get(h, "user-agent");
    match v
    case None => FallbackUserAgent
    case Some(Single(s)) => s
    case Some(Multiple(vs)) => Join(vs, ",")
  }

  /** The headers `proxyKuwoAudio` sends upstream. */
  function AudioRequestHeaders(h: RequestHeaders): (r: Headers)
    ensures DistinctKeys(r)
    ensures Get(r, "User-Agent") == Some(UserAgent(h))
    ensures Get(r, "Referer") == Some(KuwoHomeReferer)
    ensures HasKey(r, "Range") <==> Get(h, "range").Some? && Get(h, "range").value.Single?
    ensures HasKey(r, "Range") ==> Get(h, "range") == Some(Single(Get(r, "Range").value))
    ensures forall k :: HasKey(r, k) ==> k == "User-Agent" || k == "Referer" || k == "Range"
  {
    var base := [("User-Agent", UserAgent(h)), ("Referer", KuwoHomeReferer)];
    var range: Option<HeaderValue> := Get(h, "range");
    match range
    case Some(Single(s)) => Put(base, "Range", s)
    case _ => base
  }

  /** The headers every API request carries. */
  function BaseApiHeaders(h: RequestHeaders): Headers {
    [("User-Agent", UserAgent(h)), ("Accept", ApiAccept)]
  }

  /** The headers added for the Kuwo source. */
  const KuwoApiHeaders: Headers :=
    [("Referer", KuwoHomeReferer), ("Origin", KuwoOrigin), ("Accept-Language", KuwoAcceptLanguage)]

  /** The headers `proxyApiRequest` sends upstream (the three Kuwo headers
      are new keys, so assigning them appends). */
  function ApiRequestHeaders(h: RequestHeaders, source: Option<string>): (r: Headers)
    ensures Get(r, "User-Agent") == Some(UserAgent(h)) && Get(r, "Accept") == Some(ApiAccept)
    ensures HasKey(r, "Referer") <==> source == Some("kuwo")
    ensures forall k :: HasKey(r, k) <==>
              k == "User-Agent" || k == "Accept"
              || (source == Some("kuwo") && (k == "Referer" || k == "Origin" || k == "Accept-Language"))
  {
    ApiHeaderNames(h);
    if source == Some("kuwo") then
      BaseApiPrefix(h, KuwoApiHeaders);
      assert KuwoApiHeaders[0].0 == "Referer";
      BaseApiHeaders(h) + KuwoApiHeaders
    else
      BaseApiPrefix(h, []);
      assert BaseApiHeaders(h) + [] == BaseApiHeaders(h);
      BaseApiHeaders(h)
  }

  /** The names of the base headers, and of the base headers followed by
      the Kuwo additions. */
  lemma ApiHeaderNames(h: RequestHeaders)
    ensures forall k :: HasKey(BaseApiHeaders(h), k) <==> k == "User-Agent" || k == "Accept"
    ensures forall k :: HasKey(BaseApiHeaders(h) + KuwoApiHeaders, k) <==>
              k == "User-Agent" || k == "Accept" || k == "Referer" || k == "Origin" || k == "Accept-Language"
  {
    forall k ensures HasKey(BaseApiHeaders(h) + KuwoApiHeaders, k) <==> HasKey(BaseApiHeaders(h), k) || HasKey(KuwoApiHeaders, k) {
      GetAppend(BaseApiHeaders(h), KuwoApiHeaders, k);
    }
    forall k ensures HasKey(BaseApiHeaders(h), k) <==> k == "User-Agent" || k == "Accept"
                 ensures HasKey(KuwoApiHeaders, k) <==> k == "Referer" || k == "Origin" || k == "Accept-Language" {
      HeaderKeys(h, k);
    }
  }

  /** Headers placed after the base pair do not change its two values, and
      the referer comes only from what follows. */
  lemma BaseApiPrefix(h: RequestHeaders, rest: Headers)
    ensures var r := BaseApiHeaders(h) + rest;
            && Get(r, "User-Agent") == Some(UserAgent(h))
            && Get(r, "Accept") == Some(ApiAccept)
            && (HasKey(r, "Referer") <==> HasKey(rest, "Referer"))
  {
    var r := BaseApiHeaders(h) + rest;
    GetFirst(r, 0, "User-Agent");
    GetFirst(r, 1, "Accept");
    HeaderKeys(h, "Referer");
    GetAppend(BaseApiHeaders(h), rest, "Referer");
  }

  lemma HeaderKeys(h: RequestHeaders, k: string)
    ensures HasKey(BaseApiHeaders(h), k) <==> k == "User-Agent" || k == "Accept"
    ensures HasKey(KuwoApiHeaders, k) <==> k == "Referer" || k == "Origin" || k == "Accept-Language"
  {
    var b := BaseApiHeaders(h);
    assert b[0].0 == "User-Agent" && b[1].0 == "Accept";
    var e := KuwoApiHeaders;
    assert e[0].0 == "Referer" && e[1].0 == "Origin" && e[2].0 == "Accept-Language";
  }

  /** Every API request carries the User-Agent and Accept headers; the Kuwo
      source adds the home-page referer, origin and language, and no variant
      of the request carries a cookie or a client address. */
  lemma ApiRequestHeadersGet(h: RequestHeaders, source: Option<string>)
    ensures var r := ApiRequestHeaders(h, source);
            && Get(r, "User-Agent") == Some(UserAgent(h))
            && Get(r, "Accept") == Some(ApiAccept)
            && (HasKey(r, "Referer") <==> source == Some("kuwo"))
            && (source == Some("kuwo") ==>
                  && Get(r, "Referer") == Some(KuwoHomeReferer)
                  && Get(r, "Origin") == Some(KuwoOrigin)
                  && Get(r, "Accept-Language") == Some(KuwoAcceptLanguage))
            && !HasKey(r, "Cookie") && !HasKey(r, "X-Forwarded-For") && !HasKey(r, "X-Real-IP")
  {
    ApiRequestCommonGet(h, source);
    ApiRequestKuwoGet(h, source);
  }

  /** The headers common to every source, and those never sent. */
  lemma ApiRequestCommonGet(h: RequestHeaders, source: Option<string>)
    ensures var r := ApiRequestHeaders(h, source);
            && Get(r, "User-Agent") == Some(UserAgent(h))
            && Get(r, "Accept") == Some(ApiAccept)
            && !HasKey(r, "Cookie") && !HasKey(r, "X-Forwarded-For") && !HasKey(r, "X-Real-IP")
  {
    var base := BaseApiHeaders(h);
    var e := KuwoApiHeaders;
    HeaderKeys(h, "User-Agent");
    HeaderKeys(h, "Accept");
    HeaderKeys(h, "Cookie");
    HeaderKeys(h, "X-Forwarded-For");
    HeaderKeys(h, "X-Real-IP");
    GetFirst(base, 0, "User-Agent");
    GetFirst(base, 1, "Accept");
    GetAppend(base, e, "User-Agent");
    GetAppend(base, e, "Accept");
    GetAppend(base, e, "Cookie");
    GetAppend(base, e, "X-Forwarded-For");
    GetAppend(base, e, "X-Real-IP");
  }

  /** The headers only the Kuwo source carries. */
  lemma ApiRequestKuwoGet(h: RequestHeaders, source: Option<string>)
    ensures var r := ApiRequestHeaders(h, source);
            && (HasKey(r, "Referer") <==> source == Some("kuwo"))
            && (source == Some("kuwo") ==>
                  && Get(r, "Referer") == Some(KuwoHomeReferer)
                  && Get(r, "Origin") == Some(KuwoOrigin)
                  && Get(r, "Accept-Language") == Some(KuwoAcceptLanguage))
  {
    var base := BaseApiHeaders(h);
    var e := KuwoApiHeaders;
    HeaderKeys(h, "Referer");
    HeaderKeys(h, "Origin");
    HeaderKeys(h, "Accept-Language");
    GetFirst(e, 0, "Referer");
    GetFirst(e, 1, "Origin");
    GetFirst(e, 2, "Accept-Language");
    GetAppend(base, e, "Referer");
    GetAppend(base, e, "Origin");
    GetAppend(base, e, "Accept-Language");
  }

  /** `handler` of `api/proxy.ts`. */
  function Handler(req: Request, parse: string -> Option<Url>): (r: Outcome)
    ensures r.FetchAudio? ==>
              && IsAllowedKuwoHost(r.url.hostname) && r.url.protocol == "http:"
              && r.verb == req.verb && Truthy(Get(req.query, "target"))
              && NormalizeKuwoUrl(Get(req.query, "target").value, parse).Some?
              && r.url == NormalizeKuwoUrl(Get(req.query, "target").value, parse).value
              && r.headers == AudioRequestHeaders(req.headers)
    ensures r.FetchApi? ==>
              && HasKey(r.query, "types") && !HasKey(r.query, "target") && !HasKey(r.query, "callback")
              && r.headers == ApiRequestHeaders(req.headers, Get(r.query, "source"))
              && !HasKey(r.headers, "Cookie")
  {
    var r := Handle(req, parse, AudioRequestHeaders(req.headers), source => ApiRequestHeaders(req.headers, source));
    ApiRequestHeadersGet(req.headers, if r.FetchApi? then Get(r.query, "source") else None);
    r
  }
}
