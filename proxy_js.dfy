/** The outgoing request headers of `api/proxy.js` and its handler: the
    desktop User-Agent fallback, the client IP taken from `X-Forwarded-For`
    or `X-Real-IP`, and the Kuwo-specific headers with the per-request
    token. */
module ProxyJs {
  import opened JsText
  import opened JsObject
  import opened SearchParams
  import opened KuwoUrl
  import opened CorsFilter
  import opened Proxy
  import opened NodeHeaders

  const DesktopUserAgent: string :=
    "Mozilla/5.0 (Windows NT 10.0; Win64; x64) AppleWebKit/537.36 (KHTML, like Gecko) Chrome/121.0.0.0 Safari/537.36"
  const KuwoSearchReferer: string := "https://www.kuwo.cn/search/list"

  /** `getHeader(req, name)`: a string header as is, the first element of an
      array header (undefined for an empty array). */
  function GetHeader(h: RequestHeaders, name: string): (r: Option<string>)
    ensures r.None? <==> Get(h, name).None? || Get(h, name) == Some(Multiple([]))
    ensures r.Some? ==> Get(h, name) == Some(Single(r.value))
                        || (Get(h, name).value.Multiple? && r.value == Get(h, name).value.values[0])
  {
    var v: Option<HeaderValue> := Get(h, name);
    match v
    case None => None
    case Some(Single(s)) => Some(s)
    case Some(Multiple(vs)) => if vs == [] then None else Some(vs[0])
  }

  /** The first hop of `X-Forwarded-For`: the trimmed text before the first
      comma, when the header is a non-empty string. */
  function FirstHop(h: RequestHeaders): (r: Option<string>)
    ensures r.Some? <==> GetHeader(h, "x-forwarded-for").Some? && GetHeader(h, "x-forwarded-for").value != ""
    ensures r.Some? ==> ',' !in r.value && Trimmed(r.value)
  {
    match GetHeader(h, "x-forwarded-for")
    case Some(f) =>
      if f != "" then
        TrimKeepsOut(Split(f, ',')[0], ',');
        Some(Trim(Split(f, ',')[0]))
      else None
    case None => None
  }

  /** Trimming never brings in a character the text did not hold. */
  lemma TrimKeepsOut(piece: string, c: char)
    requires c !in piece
    ensures c !in Trim(piece)
  {
    var t := Trim(piece);
    assert forall i :: 0 <= i < |t| ==> t[i] == piece[LeadingSpace(piece) + i];
  }

  /** `getClientIp(req)`: a non-empty first hop of `X-Forwarded-For`, else a
      non-empty `X-Real-IP`, else undefined. */
  function ClientIp(h: RequestHeaders): (r: Option<string>)
    ensures r.Some? ==> r.value != ""
    ensures Truthy(FirstHop(h)) ==> r == FirstHop(h) && ',' !in r.value && Trimmed(r.value)
    ensures !Truthy(FirstHop(h)) ==>
              r == (if Truthy(GetHeader(h, "x-real-ip")) then GetHeader(h, "x-real-ip") else None)
  {
    var first := FirstHop(h);
    if Truthy(first) then first
    else
      var realIp := GetHeader(h, "x-real-ip");
      if Truthy(realIp) then realIp else None
  }

  /** A forwarded chain `client, proxy1, ...` yields its first address. */
  lemma ClientIpFirstHop(h: RequestHeaders, client: string, rest: string)
    requires GetHeader(h, "x-forwarded-for") == Some(client + "," + rest)
    requires ',' !in client && Trim(client) != ""
    ensures ClientIp(h) == Some(Trim(client))
  {
    SplitPrefix(client, rest, ',');
    assert client + "," + rest == client + [','] + rest;
  }

  /** `getHeader(req, 'user-agent') || DESKTOP_UA`. */
  function UserAgent(h: RequestHeaders): (r: string)
    ensures r != ""
    ensures Truthy(GetHeader(h, "user-agent")) ==> r == GetHeader(h, "user-agent").value
    ensures !Truthy(GetHeader(h, "user-agent")) ==> r == DesktopUserAgent
  {
    var ua := GetHeader(h, "user-agent");
    if Truthy(ua) then ua.value else DesktopUserAgent
  }

  /** The headers `proxyKuwoAudio` sends upstream. */
  function AudioRequestHeaders(h: RequestHeaders): (r: Headers)
    ensures DistinctKeys(r)
    ensures Get(r, "User-Agent") == Some(UserAgent(h))
    ensures Get(r, "Referer") == Some(KuwoHomeReferer)
    ensures Get(r, "Range") == GetHeader(h, "range")
    ensures forall k :: HasKey(r, k) ==> k == "User-Agent" || k == "Referer" || k == "Range"
  {
    var base := [("User-Agent", UserAgent(h)), ("Referer", KuwoHomeReferer)];
    AudioBaseHeaders(UserAgent(h));
    match GetHeader(h, "range")
    case Some(range) => Put(base, "Range", range)
    case None => base
  }

  /** The two fixed audio request headers. */
  lemma AudioBaseHeaders(ua: string)
    ensures var base := [("User-Agent", ua), ("Referer", KuwoHomeReferer)];
            && DistinctKeys(base)
            && Get(base, "User-Agent") == Some(ua)
            && Get(base, "Referer") == Some(KuwoHomeReferer)
            && !HasKey(base, "Range")
            && forall k :: HasKey(base, k) ==> k == "User-Agent" || k == "Referer"
  {
    var base := [("User-Agent", ua), ("Referer", KuwoHomeReferer)];
    assert base[0].0 == "User-Agent" && base[1].0 == "Referer";
  }

  /** The headers every API request carries. */
  function BaseApiHeaders(h: RequestHeaders): Headers {
    [("User-Agent", UserAgent(h)), ("Accept", ApiAccept)]
  }

  lemma BaseApiHeadersKeys(h: RequestHeaders, k: string)
    ensures HasKey(BaseApiHeaders(h), k) <==> k == "User-Agent" || k == "Accept"
    ensures Get(BaseApiHeaders(h), "User-Agent") == Some(UserAgent(h))
  {
    var b := BaseApiHeaders(h);
    assert b[0].0 == "User-Agent" && b[1].0 == "Accept";
  }

  /** The headers added for the Kuwo source, before the client address. */
  function KuwoApiHeaders(token: string): Headers {
    [("Referer", KuwoSearchReferer), ("Origin", KuwoOrigin),
     ("Accept-Language", KuwoAcceptLanguage), ("X-Requested-With", "XMLHttpRequest"),
     ("Cookie", "kw_token=" + token + "; csrf=" + token), ("csrf", token)]
  }

  /** The forwarding headers added for the Kuwo source when the client
      address is known. */
  function ClientIpHeaders(ip: Option<string>): Headers {
    match ip
    case Some(a) => [("X-Forwarded-For", a), ("X-Real-IP", a)]
    case None => []
  }

  /** The headers `proxyApiRequest` sends upstream; `token` is the result of
      `createKuwoToken()`. */
  function ApiRequestHeaders(h: RequestHeaders, source: Option<string>, token: string): (r: Headers)
    ensures Get(r, "User-Agent") == Some(UserAgent(h)) && Get(r, "Accept") == Some(ApiAccept)
    ensures HasKey(r, "Cookie") <==> source == Some("kuwo")
  {
    if source != Some("kuwo") then
      BaseApiPrefix(h, []);
      assert BaseApiHeaders(h) + [] == BaseApiHeaders(h);
      BaseApiHeaders(h)
    else
      var rest := KuwoApiHeaders(token) + ClientIpHeaders(ClientIp(h));
      BaseApiPrefix(h, rest);
      assert rest[4].0 == "Cookie";
      assert BaseApiHeaders(h) + KuwoApiHeaders(token) + ClientIpHeaders(ClientIp(h))
             == BaseApiHeaders(h) + rest;
      BaseApiHeaders(h) + KuwoApiHeaders(token) + ClientIpHeaders(ClientIp(h))
  }

  /** Headers placed after the base pair do not change its two values, and
      the cookie comes only from what follows. */
  lemma BaseApiPrefix(h: RequestHeaders, rest: Headers)
    ensures var r := BaseApiHeaders(h) + rest;
            && Get(r, "User-Agent") == Some(UserAgent(h))
            && Get(r, "Accept") == Some(ApiAccept)
            && (HasKey(r, "Cookie") <==> HasKey(rest, "Cookie"))
  {
    var r := BaseApiHeaders(h) + rest;
    GetFirst(r, 0, "User-Agent");
    GetFirst(r, 1, "Accept");
    BaseApiHeadersKeys(h, "Cookie");
    GetAppend(BaseApiHeaders(h), rest, "Cookie");
  }

  /** For a source other than Kuwo only the User-Agent and Accept headers go
      out: no token, no cookie and no client address. */
  lemma ApiRequestHeadersOther(h: RequestHeaders, source: Option<string>, token: string)
    requires source != Some("kuwo")
    ensures var r := ApiRequestHeaders(h, source, token);
            && Get(r, "User-Agent") == Some(UserAgent(h))
            && Get(r, "Accept") == Some(ApiAccept)
            && forall k :: HasKey(r, k) ==> k == "User-Agent" || k == "Accept"
  {
  }

  /** The names a Kuwo API request may carry. */
  const KuwoApiNames: set<string> :=
    {"User-Agent", "Accept", "Referer", "Origin", "Accept-Language", "X-Requested-With",
     "Cookie", "csrf", "X-Forwarded-For", "X-Real-IP"}

  lemma KuwoApiHeadersGet(token: string)
    ensures var e := KuwoApiHeaders(token);
            && Get(e, "Referer") == Some(KuwoSearchReferer)
            && Get(e, "Origin") == Some(KuwoOrigin)
            && Get(e, "Accept-Language") == Some(KuwoAcceptLanguage)
            && Get(e, "X-Requested-With") == Some("XMLHttpRequest")
            && Get(e, "Cookie") == Some("kw_token=" + token + "; csrf=" + token)
            && Get(e, "csrf") == Some(token)
            && !HasKey(e, "User-Agent") && !HasKey(e, "Accept")
            && !HasKey(e, "X-Forwarded-For") && !HasKey(e, "X-Real-IP")
  {
    KuwoApiHeadersFront(token);
    KuwoApiHeadersBack(token);
    KuwoApiHeadersKeys(token, "User-Agent");
    KuwoApiHeadersKeys(token, "Accept");
    KuwoApiHeadersKeys(token, "X-Forwarded-For");
    KuwoApiHeadersKeys(token, "X-Real-IP");
  }

  lemma KuwoApiHeadersFront(token: string)
    ensures var e := KuwoApiHeaders(token);
            && Get(e, "Referer") == Some(KuwoSearchReferer)
            && Get(e, "Origin") == Some(KuwoOrigin)
            && Get(e, "Accept-Language") == Some(KuwoAcceptLanguage)
  {
    var e := KuwoApiHeaders(token);
    GetFirst(e, 0, "Referer");
    GetFirst(e, 1, "Origin");
    GetFirst(e, 2, "Accept-Language");
  }

  lemma KuwoApiHeadersBack(token: string)
    ensures var e := KuwoApiHeaders(token);
            && Get(e, "X-Requested-With") == Some("XMLHttpRequest")
            && Get(e, "Cookie") == Some("kw_token=" + token + "; csrf=" + token)
            && Get(e, "csrf") == Some(token)
  {
    var e := KuwoApiHeaders(token);
    GetFirst(e, 3, "X-Requested-With");
    GetFirst(e, 4, "Cookie");
    GetFirst(e, 5, "csrf");
  }

  /** The six names of the Kuwo additions. */
  lemma KuwoApiHeadersKeys(token: string, k: string)
    ensures HasKey(KuwoApiHeaders(token), k) ==>
              k == "Referer" || k == "Origin" || k == "Accept-Language"
              || k == "X-Requested-With" || k == "Cookie" || k == "csrf"
  {
    var e := KuwoApiHeaders(token);
    if HasKey(e, k) {
      var i :| 0 <= i < |e| && e[i].0 == k;
    }
  }

  /** Every name of the three parts of a Kuwo API request is one of
      `KuwoApiNames`. */
  lemma KuwoApiPartNames(h: RequestHeaders, token: string, k: string)
    ensures HasKey(BaseApiHeaders(h), k) ==> k in KuwoApiNames
    ensures HasKey(KuwoApiHeaders(token), k) ==> k in KuwoApiNames
    ensures HasKey(ClientIpHeaders(ClientIp(h)), k) ==> k in KuwoApiNames
  {
    BaseApiHeadersKeys(h, k);
    KuwoApiHeadersKeys(token, k);
    var ip := ClientIpHeaders(ClientIp(h));
    if HasKey(ip, k) {
      var i :| 0 <= i < |ip| && ip[i].0 == k;
    }
  }

  /** For Kuwo the same token appears in the cookie and the `csrf` header,
      the Kuwo search page is the referer, the Kuwo origin, language and
      `XMLHttpRequest` marker are added, the client address, when known,
      goes out in both forwarding headers, and no other header is sent. */
  lemma ApiRequestHeadersKuwo(h: RequestHeaders, token: string)
    ensures var r := ApiRequestHeaders(h, Some("kuwo"), token);
            && Get(r, "User-Agent") == Some(UserAgent(h))
            && Get(r, "Accept") == Some(ApiAccept)
            && Get(r, "Referer") == Some(KuwoSearchReferer)
            && Get(r, "Origin") == Some(KuwoOrigin)
            && Get(r, "Accept-Language") == Some(KuwoAcceptLanguage)
            && Get(r, "X-Requested-With") == Some("XMLHttpRequest")
            && Get(r, "Cookie") == Some("kw_token=" + token + "; csrf=" + token)
            && Get(r, "csrf") == Some(token)
            && Get(r, "X-Forwarded-For") == ClientIp(h)
            && Get(r, "X-Real-IP") == ClientIp(h)
            && forall k :: HasKey(r, k) ==> k in KuwoApiNames
  {
    ApiRequestKuwoFixed(h, token);
    ApiRequestKuwoToken(h, token);
    ApiRequestKuwoNames(h, token);
  }

  /** The parts of a Kuwo API request. */
  lemma KuwoApiParts(h: RequestHeaders, token: string)
    ensures ApiRequestHeaders(h, Some("kuwo"), token)
            == BaseApiHeaders(h) + (KuwoApiHeaders(token) + ClientIpHeaders(ClientIp(h)))
  {
  }

  lemma ApiRequestKuwoFixed(h: RequestHeaders, token: string)
    ensures var r := ApiRequestHeaders(h, Some("kuwo"), token);
            && Get(r, "User-Agent") == Some(UserAgent(h))
            && Get(r, "Accept") == Some(ApiAccept)
            && Get(r, "Referer") == Some(KuwoSearchReferer)
            && Get(r, "Origin") == Some(KuwoOrigin)
            && Get(r, "Accept-Language") == Some(KuwoAcceptLanguage)
            && Get(r, "X-Requested-With") == Some("XMLHttpRequest")
  {
    KuwoApiHeadersGet(token);
    ApiRequestKuwoLookup(h, token, "Referer");
    ApiRequestKuwoLookup(h, token, "Origin");
    ApiRequestKuwoLookup(h, token, "Accept-Language");
    ApiRequestKuwoLookup(h, token, "X-Requested-With");
  }

  /** A name the Kuwo part carries and the base part does not is looked up
      in the Kuwo part. */
  lemma ApiRequestKuwoLookup(h: RequestHeaders, token: string, k: string)
    requires HasKey(KuwoApiHeaders(token), k) && k != "User-Agent" && k != "Accept"
    ensures Get(ApiRequestHeaders(h, Some("kuwo"), token), k) == Get(KuwoApiHeaders(token), k)
  {
    var base := BaseApiHeaders(h);
    var kuwo := KuwoApiHeaders(token);
    var ip := ClientIpHeaders(ClientIp(h));
    KuwoApiParts(h, token);
    BaseApiHeadersKeys(h, k);
    GetAppend(base, kuwo + ip, k);
    GetAppend(kuwo, ip, k);
  }

  lemma ApiRequestKuwoToken(h: RequestHeaders, token: string)
    ensures var r := ApiRequestHeaders(h, Some("kuwo"), token);
            && Get(r, "Cookie") == Some("kw_token=" + token + "; csrf=" + token)
            && Get(r, "csrf") == Some(token)
            && Get(r, "X-Forwarded-For") == ClientIp(h)
            && Get(r, "X-Real-IP") == ClientIp(h)
  {
    var base := BaseApiHeaders(h);
    var kuwo := KuwoApiHeaders(token);
    var ip := ClientIpHeaders(ClientIp(h));
    KuwoApiParts(h, token);
    KuwoApiHeadersGet(token);
    ApiRequestKuwoLookup(h, token, "Cookie");
    ApiRequestKuwoLookup(h, token, "csrf");
    BaseApiHeadersKeys(h, "X-Forwarded-For");
    BaseApiHeadersKeys(h, "X-Real-IP");
    GetAppend(base, kuwo + ip, "X-Forwarded-For");
    GetAppend(base, kuwo + ip, "X-Real-IP");
    GetAppend(kuwo, ip, "X-Forwarded-For");
    GetAppend(kuwo, ip, "X-Real-IP");
  }

  lemma ApiRequestKuwoNames(h: RequestHeaders, token: string)
    ensures forall k :: HasKey(ApiRequestHeaders(h, Some("kuwo"), token), k) ==> k in KuwoApiNames
  {
    var base := BaseApiHeaders(h);
    var kuwo := KuwoApiHeaders(token);
    var ip := ClientIpHeaders(ClientIp(h));
    KuwoApiParts(h, token);
    forall k | HasKey(base + (kuwo + ip), k) ensures k in KuwoApiNames {
      GetAppend(base, kuwo + ip, k);
      GetAppend(kuwo, ip, k);
      KuwoApiPartNames(h, token, k);
    }
  }

  /** `handler` of `api/proxy.js`. */
  function Handler(req: Request, parse: string -> Option<Url>, token: string): (r: Outcome)
    ensures r.FetchAudio? ==>
              && IsAllowedKuwoHost(r.url.hostname) && r.url.protocol == "http:"
              && r.verb == req.verb && Truthy(Get(req.query, "target"))
              && NormalizeKuwoUrl(Get(req.query, "target").value, parse).Some?
              && r.url == NormalizeKuwoUrl(Get(req.query, "target").value, parse).value
              && r.headers == AudioRequestHeaders(req.headers)
    ensures r.FetchApi? ==>
              && HasKey(r.query, "types") && !HasKey(r.query, "target") && !HasKey(r.query, "callback")
              && r.headers == ApiRequestHeaders(req.headers, Get(r.query, "source"), token)
              && (Get(r.query, "source") == Some("kuwo") <==> HasKey(r.headers, "Cookie"))
  {
    var r := Handle(req, parse, AudioRequestHeaders(req.headers),
                    source => ApiRequestHeaders(req.headers, source, token));
    var source := if r.FetchApi? then Get(r.query, "source") else None;
    ApiRequestHeadersKuwo(req.headers, token);
    if source == Some("kuwo") then r
    else ApiRequestHeadersOther(req.headers, source, token); r
  }
}
