/** What the two proxy handlers (`api/proxy.js` and `api/proxy.ts`) share:
    request routing, the preflight reply, the audio and API forwarding
    decisions, and relaying an upstream response through the header filter
    into Node's response header table. The per-variant outgoing request
    headers are passed in by ProxyJs and ProxyTs. */
module Proxy {
  import opened JsText
  import opened JsObject
  import opened SearchParams
  import opened KuwoUrl
  import opened CorsFilter
  import opened NodeHeaders

  /** An incoming request: its method, the search parameters of
      `https://dummy${req.url ?? '/'}`, and its headers. */
  datatype Request = Request(verb: string, query: Query, headers: RequestHeaders)

  /** What the handler does: answer at once, or fetch from a Kuwo audio URL
      or from the music API with the given query. */
  datatype Outcome =
    | Reply(status: int, headers: Headers, body: string)
    | FetchAudio(url: Url, verb: string, headers: Headers)
    | FetchApi(query: Query, headers: Headers)

  const PreflightHeaders: Headers :=
    [(AllowOrigin, "*"),
     ("Access-Control-Allow-Methods", "GET,HEAD,OPTIONS"),
     ("Access-Control-Allow-Headers", "*"),
     ("Access-Control-Max-Age", "86400")]
  const MethodNotAllowedText: string := "Method not allowed"
  const InvalidTargetText: string := "Invalid target"
  const MissingTypesText: string := "Missing types"
  const KuwoHomeReferer: string := "https://www.kuwo.cn/"
  const KuwoOrigin: string := "https://www.kuwo.cn"
  const KuwoAcceptLanguage: string := "zh-CN,zh;q=0.9"
  const ApiAccept: string := "application/json, text/plain, */*"

  predicate IsReadMethod(verb: string) {
    verb == "GET" || verb == "HEAD"
  }

  /** `handler` (with `proxyKuwoAudio` and `proxyApiRequest` up to their
      `fetch`): OPTIONS gets the preflight reply, methods other than GET and
      HEAD get 405; a truthy `target` parameter selects the audio path, which
      refuses anything `normalizeKuwoUrl` rejects; otherwise the API path
      forwards every parameter but `target` and `callback` and insists on
      `types`. `audioHeaders` and `apiHeaders` (given the forwarded `source`)
      are the variant's outgoing request headers. */
  function Handle(req: Request, parse: string -> Option<Url>, audioHeaders: Headers,
                  apiHeaders: Option<string> -> Headers): (r: Outcome)
    ensures r == Reply(204, PreflightHeaders, "") <==> req.verb == "OPTIONS"
    ensures r == Reply(405, [], MethodNotAllowedText) <==>
              req.verb != "OPTIONS" && !IsReadMethod(req.verb)
    ensures r == Reply(400, [], InvalidTargetText) <==>
              && IsReadMethod(req.verb)
              && Truthy(Get(req.query, "target"))
              && NormalizeKuwoUrl(Get(req.query, "target").value, parse).None?
    ensures r == Reply(400, [], MissingTypesText) <==>
              IsReadMethod(req.verb) && !Truthy(Get(req.query, "target")) && !HasKey(req.query, "types")
    ensures r.FetchAudio? <==>
              && IsReadMethod(req.verb)
              && Truthy(Get(req.query, "target"))
              && NormalizeKuwoUrl(Get(req.query, "target").value, parse).Some?
    ensures r.FetchAudio? ==>
              && r.verb == req.verb
              && r.url.protocol == "http:"
              && IsAllowedKuwoHost(r.url.hostname)
              && r.url == NormalizeKuwoUrl(Get(req.query, "target").value, parse).value
              && r.headers == audioHeaders
    ensures r.FetchApi? <==>
              IsReadMethod(req.verb) && !Truthy(Get(req.query, "target")) && HasKey(req.query, "types")
    ensures r.FetchApi? ==>
              && r.query == ApiQuery(req.query)
              && DistinctKeys(r.query)
              && HasKey(r.query, "types")
              && !HasKey(r.query, "target")
              && !HasKey(r.query, "callback")
              && r.headers == apiHeaders(Get(r.query, "source"))
  {
    if req.verb == "OPTIONS" then Reply(204, PreflightHeaders, "")
    else if !IsReadMethod(req.verb) then Reply(405, [], MethodNotAllowedText)
    else
      var target := Get(req.query, "target");
      if Truthy(target) then
        match NormalizeKuwoUrl(target.value, parse)
        case None => Reply(400, [], InvalidTargetText)
        case Some(u) => FetchAudio(u, req.verb, audioHeaders)
      else
        var q := ApiQuery(req.query);
        ApiQueryNames(req.query, "types");
        ApiQueryNames(req.query, "target");
        ApiQueryNames(req.query, "callback");
        if !HasKey(q, "types") then Reply(400, [], MissingTypesText)
        else FetchApi(q, apiHeaders(Get(q, "source")))
  }

  /** The API query carries, under every forwarded name, the value of the
      last inbound parameter of that name, and the `source` that selects the
      Kuwo-specific request headers is that value. */
  lemma HandleApiQuery(req: Request, parse: string -> Option<Url>, audioHeaders: Headers,
                       apiHeaders: Option<string> -> Headers, k: string)
    requires Handle(req, parse, audioHeaders, apiHeaders).FetchApi?
    ensures var q := Handle(req, parse, audioHeaders, apiHeaders).query;
            Get(q, k) == if Forwarded(k) then LastValue(req.query, k) else None
  {
    ApiQueryValues(req.query, k);
  }

  /** An upstream `fetch` response: status, the name/value pairs its
      `Headers` object enumerates, and the body bytes. */
  datatype Upstream = Upstream(status: int, headers: Headers, body: seq<bv8>)

  /** What the handler hands to the response: status, the `setHeader`
      calls in order, and the body bytes. */
  datatype Relayed = Relayed(status: int, headers: Headers, body: seq<bv8>)

  /** Fetch's `Headers` enumerates lower-cased names. */
  predicate LowerCaseNames(h: Headers) {
    forall i :: 0 <= i < |h| ==> ToLower(h[i].0) == h[i].0
  }

  function LowerNames(e: Headers): (r: Headers)
    ensures |r| == |e|
    ensures forall i :: 0 <= i < |e| ==> r[i] == (ToLower(e[i].0), e[i].1)
  {
    seq(|e|, i requires 0 <= i < |e| => (ToLower(e[i].0), e[i].1))
  }

  /** Node's header table after `res.setHeader(key, value)` for each entry in
      order: names are case-insensitive, so a later entry replaces an earlier
      one whose name differs only in case. */
  function Sent(e: Headers): Headers {
    Assign(LowerNames(e))
  }

  /** The header a client sees under a lower-case name is the value of the
      last entry set under any spelling of it. */
  lemma SentGet(e: Headers, lname: string)
    ensures Get(Sent(e), lname) == LastValue(LowerNames(e), lname)
  {
  }

  /** The response headers `proxyKuwoAudio` as written sends, before the
      header table: the filter, then the one-hour fallback. */
  function AudioResponseHeaders(h: Headers): (r: Headers)
    ensures DistinctKeys(r)
    ensures Get(r, AllowOrigin) == Some("*")
    ensures Truthy(Get(r, CacheControl))
  {
    CorsHeadersShape(Assign(h));
    var cors := CorsHeaders(Assign(h));
    if !Truthy(Get(cors, CacheControl)) then Put(cors, CacheControl, AudioCacheControl) else cors
  }

  /** The response headers `proxyApiRequest` as written sends, before the
      header table: the filter, then the JSON content-type fallback. */
  function ApiResponseHeaders(h: Headers): (r: Headers)
    ensures DistinctKeys(r)
    ensures Get(r, AllowOrigin) == Some("*")
    ensures Truthy(Get(r, CacheControl))
    ensures Truthy(Get(r, ContentType))
  {
    CorsHeadersShape(Assign(h));
    HeaderNames();
    var cors := CorsHeaders(Assign(h));
    if !Truthy(Get(cors, ContentType)) then Put(cors, ContentType, JsonContentType) else cors
  }

  /** `upstream.headers.forEach((value, key) => { headersObj[key] = value; })`. */
  method CollectHeaders(h: Headers) returns (obj: Headers)
    ensures obj == Assign(h)
  {
    obj := [];
    var i := 0;
    while i < |h|
      invariant 0 <= i <= |h|
      invariant obj == Assign(h[..i])
    {
      assert h[..i + 1][..i] == h[..i];
      obj := Put(obj, h[i].0, h[i].1);
      i := i + 1;
    }
    assert h[..|h|] == h;
  }

  /** The relay half of `proxyKuwoAudio` as written: the status and body
      pass through; the headers set on the response are the upstream headers
      through `createCorsHeaders`, then the one-hour fallback when the exact
      key `Cache-Control` is empty. */
  method RelayAudio(up: Upstream) returns (res: Relayed)
    ensures res == Relayed(up.status, AudioResponseHeaders(up.headers), up.body)
  {
    var headersObj := CollectHeaders(up.headers);
    var corsHeaders := CreateCorsHeaders(headersObj);
    if !Truthy(Get(corsHeaders, CacheControl)) {
      corsHeaders := Put(corsHeaders, CacheControl, AudioCacheControl);
    }
    res := Relayed(up.status, corsHeaders, up.body);
  }

  /** The relay half of `proxyApiRequest` as written: as for audio, with the
      JSON content type as the fallback when the exact key `Content-Type` is
      empty. */
  method RelayApi(up: Upstream) returns (res: Relayed)
    ensures res == Relayed(up.status, ApiResponseHeaders(up.headers), up.body)
  {
    var headersObj := CollectHeaders(up.headers);
    var corsHeaders := CreateCorsHeaders(headersObj);
    if !Truthy(Get(corsHeaders, ContentType)) {
      corsHeaders := Put(corsHeaders, ContentType, JsonContentType);
    }
    res := Relayed(up.status, corsHeaders, up.body);
  }

  /** The audio relay with the corrected filter: presence checked in any
      letter case and the one-hour default for a missing cache policy. */
  method RelayAudioCorrected(up: Upstream) returns (res: Relayed)
    ensures res == Relayed(up.status, ResponseHeaders(Assign(up.headers), Audio), up.body)
  {
    var headersObj := CollectHeaders(up.headers);
    var corsHeaders := FilterResponseHeaders(headersObj, Audio);
    res := Relayed(up.status, corsHeaders, up.body);
  }

  /** The API relay with the corrected filter: `no-store` and the JSON
      content type only where no spelling of those headers carries a value. */
  method RelayApiCorrected(up: Upstream) returns (res: Relayed)
    ensures res == Relayed(up.status, ResponseHeaders(Assign(up.headers), Api), up.body)
  {
    var headersObj := CollectHeaders(up.headers);
    var corsHeaders := FilterResponseHeaders(headersObj, Api);
    res := Relayed(up.status, corsHeaders, up.body);
  }

  /** As written, the audio path's `public, max-age=3600` fallback is dead:
      the filter already guarantees a non-empty exact `Cache-Control`. */
  lemma AudioFallbackDead(h: Headers)
    ensures AudioResponseHeaders(h) == CorsHeaders(Assign(h))
  {
    CorsHeadersShape(Assign(h));
  }

  lemma {:induction false} LastValueAppend(e: Headers, p: (string, string), k: string)
    ensures LastValue(e + [p], k) == if p.0 == k then Some(p.1) else LastValue(e, k)
  {
    assert (e + [p])[..|e|] == e;
  }

  lemma LowerNamesAppend(e: Headers, p: (string, string))
    ensures LowerNames(e + [p]) == LowerNames(e) + [(ToLower(p.0), p.1)]
  {
  }

  lemma NoExactName(h: Headers, name: string)
    requires LowerCaseNames(h) && ToLower(name) != name
    ensures !HasKey(h, name) && !HasKey(Assign(h), name)
  {
    assert LastValue(h, name).None?;
  }

  lemma ExactNames()
    ensures ToLower(CacheControl) != CacheControl
    ensures ToLower(ContentType) != ContentType
    ensures ToLower(AllowOrigin) != "cache-control" && ToLower(AllowOrigin) != "content-type"
    ensures ToLower(ContentType) == "content-type" && ToLower(CacheControl) == "cache-control"
  {
    HeaderNames();
    assert ToLower(CacheControl)[0] != CacheControl[0];
    assert ToLower(ContentType)[0] != ContentType[0];
  }

  /** With the lower-case names Fetch hands over, the filter appends its own
      `Cache-Control: no-store` and the allow-origin header after the kept
      upstream entries. */
  lemma CorsHeadersAppends(h: Headers)
    requires LowerCaseNames(h)
    ensures CorsHeaders(Assign(h)) ==
            SafeObject(Assign(h)) + [(CacheControl, DefaultCacheControl), (AllowOrigin, "*")]
  {
    KeptLacksCacheControl(h);
    KeptLacksAllowOrigin(h);
    var kept := SafeObject(Assign(h));
    assert AllowOrigin != CacheControl;
    var cached := Put(kept, CacheControl, DefaultCacheControl);
    assert cached == kept + [(CacheControl, DefaultCacheControl)];
    assert (kept + [(CacheControl, DefaultCacheControl)]) + [(AllowOrigin, "*")]
        == kept + [(CacheControl, DefaultCacheControl), (AllowOrigin, "*")];
  }

  /** Lower-case upstream names never produce the exact key `Cache-Control`. */
  lemma KeptLacksCacheControl(h: Headers)
    requires LowerCaseNames(h)
    ensures !HasKey(SafeObject(Assign(h)), CacheControl)
  {
    ExactNames();
    HeaderNames();
    NoExactName(h, CacheControl);
    SafeObjectGet(Assign(h), CacheControl);
  }

  /** The allow-origin header is not safe-listed, so it is never kept. */
  lemma KeptLacksAllowOrigin(h: Headers)
    ensures !HasKey(SafeObject(Assign(h)), AllowOrigin)
  {
    HeaderNames();
    SafeObjectGet(Assign(h), AllowOrigin);
  }

  /** As written, every relayed response carries `cache-control: no-store`:
      the upstream policy arrives as `cache-control`, the filter then sets
      `Cache-Control`, and the case-insensitive header table keeps the later
      one. API responses likewise always carry the JSON content type,
      replacing what the upstream sent. */
  lemma RelayedPolicyAsWritten(h: Headers)
    requires LowerCaseNames(h)
    ensures Get(Sent(AudioResponseHeaders(h)), "cache-control") == Some(DefaultCacheControl)
    ensures Get(Sent(ApiResponseHeaders(h)), "cache-control") == Some(DefaultCacheControl)
    ensures Get(Sent(ApiResponseHeaders(h)), "content-type") == Some(JsonContentType)
  {
    ExactNames();
    AudioFallbackDead(h);
    CorsHeadersAppends(h);
    var kept := SafeObject(Assign(h));
    var cors := CorsHeaders(Assign(h));
    var cc := (CacheControl, DefaultCacheControl);
    var ao := (AllowOrigin, "*");
    assert cors == (kept + [cc]) + [ao];
    LowerNamesAppend(kept + [cc], ao);
    LowerNamesAppend(kept, cc);
    LastValueAppend(LowerNames(kept + [cc]), (ToLower(AllowOrigin), "*"), "cache-control");
    LastValueAppend(LowerNames(kept), (ToLower(CacheControl), DefaultCacheControl), "cache-control");
    SentGet(cors, "cache-control");
    CorsHeadersGet(Assign(h), ContentType);
    NoExactName(h, ContentType);
    var api := cors + [(ContentType, JsonContentType)];
    assert ApiResponseHeaders(h) == api;
    LowerNamesAppend(cors, (ContentType, JsonContentType));
    LastValueAppend(LowerNames(cors), (ToLower(ContentType), JsonContentType), "cache-control");
    LastValueAppend(LowerNames(cors), (ToLower(ContentType), JsonContentType), "content-type");
    SentGet(api, "cache-control");
    SentGet(api, "content-type");
  }

  /** Entries whose lower-cased names differ from `k` do not change the
      last value set under `k`. */
  lemma {:induction false} LastValueLowerAppend(e: Headers, extra: Headers, k: string)
    requires forall i :: 0 <= i < |extra| ==> ToLower(extra[i].0) != k
    ensures LastValue(LowerNames(e + extra), k) == LastValue(LowerNames(e), k)
  {
    if extra != [] {
      var init := extra[..|extra| - 1];
      var p := extra[|extra| - 1];
      assert e + extra == (e + init) + [p];
      LowerNamesAppend(e + init, p);
      LastValueAppend(LowerNames(e + init), (ToLower(p.0), p.1), k);
      LastValueLowerAppend(e, init, k);
    } else {
      assert e + extra == e;
    }
  }

  lemma SafeEntriesLowerCase(h: Headers)
    requires LowerCaseNames(h) && DistinctKeys(h)
    ensures LowerCaseNames(SafeEntries(h))
    ensures LowerNames(SafeEntries(h)) == SafeEntries(h)
  {
    var kept := SafeEntries(h);
    SafeEntriesDistinct(h);
    forall i | 0 <= i < |kept| ensures ToLower(kept[i].0) == kept[i].0 {
      assert HasKey(kept, kept[i].0);
      var j :| 0 <= j < |h| && h[j].0 == kept[i].0;
    }
  }

  /** The kept upstream entries use none of the capitalised names the
      filter adds. */
  lemma KeptNames(h: Headers)
    requires LowerCaseNames(h) && DistinctKeys(h)
    ensures var kept := SafeEntries(h);
            && !HasKey(kept, CacheControl) && !HasKey(kept, ContentType) && !HasKey(kept, AllowOrigin)
            && (HasTruthyCI(kept, "cache-control") <==> HasTruthyCI(h, "cache-control"))
            && (HasTruthyCI(kept, "content-type") <==> HasTruthyCI(h, "content-type"))
  {
    SafeEntriesLowerCase(h);
    SafeEntriesTruthyCI(h, "cache-control");
    SafeEntriesTruthyCI(h, "content-type");
    ExactNames();
    var kept := SafeEntries(h);
    forall i | 0 <= i < |kept|
      ensures kept[i].0 != CacheControl && kept[i].0 != ContentType && kept[i].0 != AllowOrigin
    {
      assert ToLower(kept[i].0) == kept[i].0;
      assert ToLower(AllowOrigin)[0] != AllowOrigin[0];
    }
  }

  /** The filter's first two additions, each appended since its name is new. */
  lemma CorrectedCors(kept: Headers, mode: Mode)
    requires !HasKey(kept, CacheControl) && !HasKey(kept, ContentType) && !HasKey(kept, AllowOrigin)
    ensures var cc := if HasTruthyCI(kept, "cache-control") then [] else [(CacheControl, CacheDefault(mode))];
            var cached := if HasTruthyCI(kept, "cache-control") then kept
                          else Put(kept, CacheControl, CacheDefault(mode));
            && cached == kept + cc
            && Put(cached, AllowOrigin, "*") == kept + cc + [(AllowOrigin, "*")]
            && !HasKey(Put(cached, AllowOrigin, "*"), ContentType)
            && (HasTruthyCI(Put(cached, AllowOrigin, "*"), "content-type") <==> HasTruthyCI(kept, "content-type"))
  {
    ExactNames();
    var cached := if HasTruthyCI(kept, "cache-control") then kept
                  else Put(kept, CacheControl, CacheDefault(mode));
    if !HasTruthyCI(kept, "cache-control") {
      PutKeepsTruthyCI(kept, CacheControl, CacheDefault(mode), "content-type");
    }
    PutKeepsTruthyCI(cached, AllowOrigin, "*", "content-type");
  }

  /** `CorrectedShape` for an object whose names are lower-case and occur
      once, stated with case-insensitive presence. */
  lemma CorrectedShapeDistinct(h: Headers, mode: Mode)
    requires LowerCaseNames(h) && DistinctKeys(h)
    ensures var cc := if HasTruthyCI(h, "cache-control") then [] else [(CacheControl, CacheDefault(mode))];
            var ct := if mode == Api && !HasTruthyCI(h, "content-type") then [(ContentType, JsonContentType)] else [];
            ResponseHeaders(Assign(h), mode) == SafeEntries(h) + cc + [(AllowOrigin, "*")] + ct
  {
    AssignDistinct(h);
    SafeEntriesDistinct(h);
    AssignDistinct(SafeEntries(h));
    var kept := SafeEntries(h);
    assert SafeObject(Assign(h)) == kept;
    KeptNames(h);
    CorrectedCors(kept, mode);
  }

  /** Through the corrected filter's additions, the last value set under
      `cache-control` and `content-type` is the added default where one was
      added, and the kept upstream one otherwise. */
  lemma LastValueThroughAdditions(kept: Headers, cc: Headers, ct: Headers, mode: Mode)
    requires cc == [] || cc == [(CacheControl, CacheDefault(mode))]
    requires ct == [] || ct == [(ContentType, JsonContentType)]
    ensures var r := kept + cc + [(AllowOrigin, "*")] + ct;
            && LastValue(LowerNames(r), "cache-control") ==
                 (if cc == [] then LastValue(LowerNames(kept), "cache-control") else Some(CacheDefault(mode)))
            && LastValue(LowerNames(r), "content-type") ==
                 (if ct == [] then LastValue(LowerNames(kept), "content-type") else Some(JsonContentType))
  {
    ExactNames();
    var tail := [(AllowOrigin, "*")] + ct;
    var mid := cc + [(AllowOrigin, "*")];
    var r := kept + cc + [(AllowOrigin, "*")] + ct;
    assert r == (kept + cc) + tail;
    assert r == (kept + mid) + ct;
    forall i | 0 <= i < |tail| ensures ToLower(tail[i].0) != "cache-control" {
      if i == 0 {
        assert tail[i] == (AllowOrigin, "*");
      } else {
        assert tail[i] == (ContentType, JsonContentType);
      }
    }
    LastValueLowerAppend(kept + cc, tail, "cache-control");
    if cc == [] {
      assert kept + cc == kept;
    } else {
      LowerNamesAppend(kept, cc[0]);
      LastValueAppend(LowerNames(kept), (ToLower(cc[0].0), cc[0].1), "cache-control");
    }
    if ct == [] {
      assert (kept + mid) + ct == kept + mid;
      forall i | 0 <= i < |mid| ensures ToLower(mid[i].0) != "content-type" {
        if i < |cc| {
          assert mid[i] == (CacheControl, CacheDefault(mode));
        } else {
          assert mid[i] == (AllowOrigin, "*");
        }
      }
      LastValueLowerAppend(kept, mid, "content-type");
    } else {
      LowerNamesAppend(kept + mid, ct[0]);
      LastValueAppend(LowerNames(kept + mid), (ToLower(ct[0].0), ct[0].1), "content-type");
    }
  }

  /** `CorrectedRelayPolicy` for an object whose names are lower-case and
      occur once, stated with case-insensitive presence. */
  lemma CorrectedRelayPolicyDistinct(h: Headers, mode: Mode)
    requires LowerCaseNames(h) && DistinctKeys(h)
    ensures var sent := Sent(ResponseHeaders(Assign(h), mode));
            && Get(sent, "cache-control") ==
                 (if HasTruthyCI(h, "cache-control") then Get(h, "cache-control") else Some(CacheDefault(mode)))
            && Get(sent, "content-type") ==
                 (if mode == Api && !HasTruthyCI(h, "content-type") then Some(JsonContentType) else Get(h, "content-type"))
  {
    var kept := SafeEntries(h);
    var cc: Headers := if HasTruthyCI(h, "cache-control") then [] else [(CacheControl, CacheDefault(mode))];
    var ct: Headers := if mode == Api && !HasTruthyCI(h, "content-type") then [(ContentType, JsonContentType)] else [];
    var r := ResponseHeaders(Assign(h), mode);
    CorrectedShapeDistinct(h, mode);
    assert r == kept + cc + [(AllowOrigin, "*")] + ct;
    LastValueThroughAdditions(kept, cc, ct, mode);
    SentGet(r, "cache-control");
    SentGet(r, "content-type");
    SafeEntriesLowerCase(h);
    HeaderNames();
    SafeEntriesLastValue(h, "cache-control");
    SafeEntriesLastValue(h, "content-type");
    LastValueDistinct(h, "cache-control");
    LastValueDistinct(h, "content-type");
  }

  /** Assigning pairs with lower-case names to an object gives lower-case
      names. */
  lemma AssignLowerCase(h: Headers)
    requires LowerCaseNames(h)
    ensures LowerCaseNames(Assign(h))
  {
    var o := Assign(h);
    forall i | 0 <= i < |o| ensures ToLower(o[i].0) == o[i].0 {
      assert HasKey(o, o[i].0);
      assert LastValue(h, o[i].0).Some?;
      var j :| 0 <= j < |h| && h[j].0 == o[i].0;
    }
  }

  /** In an object with lower-case names, some spelling of `lname` carries a
      value exactly when `lname` itself does. */
  lemma TruthyCILower(o: Headers, lname: string)
    requires DistinctKeys(o) && LowerCaseNames(o) && ToLower(lname) == lname
    ensures HasTruthyCI(o, lname) <==> Truthy(Get(o, lname))
  {
    if HasTruthyCI(o, lname) {
      var i :| 0 <= i < |o| && ToLower(o[i].0) == lname && o[i].1 != "";
      assert o[i].0 == lname;
    }
    if Truthy(Get(o, lname)) {
      assert HasKey(o, lname);
      var i :| 0 <= i < |o| && o[i].0 == lname;
      assert ToLower(o[i].0) == lname;
    }
  }

  /** The object Fetch's headers are collected into: lower-case names, each
      once, and the upstream cache policy and content type present in it
      exactly when the last upstream pair of that name carries a value. */
  lemma CollectedFacts(h: Headers)
    requires LowerCaseNames(h)
    ensures DistinctKeys(Assign(h)) && LowerCaseNames(Assign(h)) && Assign(Assign(h)) == Assign(h)
    ensures HasTruthyCI(Assign(h), "cache-control") <==> Truthy(LastValue(h, "cache-control"))
    ensures HasTruthyCI(Assign(h), "content-type") <==> Truthy(LastValue(h, "content-type"))
    ensures Get(Assign(h), "cache-control") == LastValue(h, "cache-control")
    ensures Get(Assign(h), "content-type") == LastValue(h, "content-type")
  {
    AssignLowerCase(h);
    AssignDistinct(Assign(h));
    LowerCaseLiterals();
    CollectedName(h, "cache-control");
    CollectedName(h, "content-type");
  }

  lemma LowerCaseLiterals()
    ensures ToLower("cache-control") == "cache-control" && ToLower("content-type") == "content-type"
  {
    ExactNames();
    ToLowerIdempotent(CacheControl);
    ToLowerIdempotent(ContentType);
  }

  /** A lower-case name of the collected object holds the last upstream
      value of that name, and carries a value exactly when that one does. */
  lemma CollectedName(h: Headers, lname: string)
    requires LowerCaseNames(h) && ToLower(lname) == lname
    ensures HasTruthyCI(Assign(h), lname) <==> Truthy(LastValue(h, lname))
    ensures Get(Assign(h), lname) == LastValue(h, lname)
  {
    AssignLowerCase(h);
    TruthyCILower(Assign(h), lname);
  }

  /** The corrected filter on the headers Fetch hands over (a name such as
      `set-cookie` may come more than once): the kept upstream entries, then
      a default cache policy only when the last `cache-control` carries no
      value, the allow-origin header, and for API responses a JSON content
      type only when the last `content-type` carries none. */
  lemma CorrectedShape(h: Headers, mode: Mode)
    requires LowerCaseNames(h)
    ensures var cc := if Truthy(LastValue(h, "cache-control")) then [] else [(CacheControl, CacheDefault(mode))];
            var ct := if mode == Api && !Truthy(LastValue(h, "content-type")) then [(ContentType, JsonContentType)] else [];
            ResponseHeaders(Assign(h), mode) == SafeEntries(Assign(h)) + cc + [(AllowOrigin, "*")] + ct
  {
    CollectedFacts(h);
    CorrectedShapeDistinct(Assign(h), mode);
  }

  /** What the client sees with the corrected filter: the last upstream
      cache policy and content type when they carry a value, the per-mode
      defaults otherwise (and no content type added for audio). */
  lemma CorrectedRelayPolicy(h: Headers, mode: Mode)
    requires LowerCaseNames(h)
    ensures var sent := Sent(ResponseHeaders(Assign(h), mode));
            && Get(sent, "cache-control") ==
                 (if Truthy(LastValue(h, "cache-control")) then LastValue(h, "cache-control") else Some(CacheDefault(mode)))
            && Get(sent, "content-type") ==
                 (if mode == Api && !Truthy(LastValue(h, "content-type")) then Some(JsonContentType) else LastValue(h, "content-type"))
  {
    CollectedFacts(h);
    CorrectedRelayPolicyDistinct(Assign(h), mode);
  }
}
