/** The response-header filter `createCorsHeaders`, shared word for word by
    both proxy variants: keep the upstream headers whose lower-cased name is
    on the safe list, add `Cache-Control: no-store` unless the exact key
    `Cache-Control` already holds a non-empty value, and add
    `Access-Control-Allow-Origin: *`. Also a corrected filter that checks
    names case-insensitively and applies the per-mode defaults. */
module CorsFilter {
  import opened JsText
  import opened JsObject

  type Headers = Entries<string>

  const SafeResponseHeaders: seq<string> :=
    ["content-type", "cache-control", "accept-ranges", "content-length",
     "content-range", "etag", "last-modified", "expires"]
  const DefaultCacheControl: string := "no-store"
  const AudioCacheControl: string := "public, max-age=3600"
  const JsonContentType: string := "application/json; charset=utf-8"
  const CacheControl: string := "Cache-Control"
  const ContentType: string := "Content-Type"
  const AllowOrigin: string := "Access-Control-Allow-Origin"

  predicate IsSafe(name: string) {
    ToLower(name) in SafeResponseHeaders
  }

  lemma HeaderNames()
    ensures IsSafe(CacheControl) && ToLower(CacheControl) == "cache-control"
    ensures IsSafe(ContentType) && ToLower(ContentType) == "content-type"
    ensures !IsSafe(AllowOrigin)
    ensures ToLower(AllowOrigin) != "cache-control" && ToLower(AllowOrigin) != "content-type"
  {
    assert ToLower(CacheControl) == "cache-control";
    assert SafeResponseHeaders[1] == ToLower(CacheControl);
    assert ToLower(ContentType) == "content-type";
    assert SafeResponseHeaders[0] == ToLower(ContentType);
  }

  /** The entries of `h` whose name is safe-listed, in their order. */
  function SafeEntries(h: Headers): Headers {
    if h == [] then []
    else
      var init := SafeEntries(h[..|h| - 1]);
      if IsSafe(h[|h| - 1].0) then init + [h[|h| - 1]] else init
  }

  /** Filtering keeps the last value of every safe name and drops all others. */
  lemma {:induction false} SafeEntriesLastValue(h: Headers, k: string)
    ensures LastValue(SafeEntries(h), k) == if IsSafe(k) then LastValue(h, k) else None
  {
    if h != [] {
      var init := SafeEntries(h[..|h| - 1]);
      SafeEntriesLastValue(h[..|h| - 1], k);
      if IsSafe(h[|h| - 1].0) {
        assert (init + [h[|h| - 1]])[..|init|] == init;
      }
    }
  }

  /** The object `createCorsHeaders` builds in its loop: each safe-listed
      key assigned, in order, to `{}`. */
  function SafeObject(h: Headers): Headers {
    Assign(SafeEntries(h))
  }

  lemma SafeObjectGet(h: Headers, k: string)
    ensures Get(SafeObject(h), k) == if IsSafe(k) then LastValue(h, k) else None
  {
    SafeEntriesLastValue(h, k);
  }

  /** `createCorsHeaders(headers)`. */
  function CorsHeaders(h: Headers): (r: Headers)
    ensures DistinctKeys(r)
    ensures Get(r, AllowOrigin) == Some("*")
    ensures Truthy(Get(r, CacheControl))
  {
    var kept := SafeObject(h);
    var cached := if Truthy(Get(kept, CacheControl)) then kept
                  else Put(kept, CacheControl, DefaultCacheControl);
    Put(cached, AllowOrigin, "*")
  }

  /** The value of every name after `createCorsHeaders`: the allow-origin
      header is `*`; `Cache-Control` is the upstream value when that exact
      key held a non-empty one and `no-store` otherwise; every other
      safe-listed name keeps the value of its last upstream entry; nothing
      else appears. */
  lemma CorsHeadersGet(h: Headers, k: string)
    ensures Get(CorsHeaders(h), k) ==
      if k == AllowOrigin then Some("*")
      else if k == CacheControl then
        (if Truthy(LastValue(h, k)) then LastValue(h, k) else Some(DefaultCacheControl))
      else if IsSafe(k) then LastValue(h, k)
      else None
  {
    HeaderNames();
    SafeObjectGet(h, k);
    SafeObjectGet(h, CacheControl);
  }

  /** The shape of the result: an object (no repeated key) whose keys are
      safe-listed or the allow-origin header, with `*` for that header and a
      non-empty exact `Cache-Control`. The last clause is why the audio path's
      `public, max-age=3600` fallback can never be taken. */
  lemma CorsHeadersShape(h: Headers)
    ensures DistinctKeys(CorsHeaders(h))
    ensures forall k :: HasKey(CorsHeaders(h), k) ==> IsSafe(k) || k == AllowOrigin
    ensures Get(CorsHeaders(h), AllowOrigin) == Some("*")
    ensures Truthy(Get(CorsHeaders(h), CacheControl))
  {
    forall k | HasKey(CorsHeaders(h), k) ensures IsSafe(k) || k == AllowOrigin {
      CorsHeadersGet(h, k);
      HeaderNames();
    }
    CorsHeadersGet(h, AllowOrigin);
    CorsHeadersGet(h, CacheControl);
  }

  /** The loop of `createCorsHeaders` over `Object.keys(headers)`: each
      safe-listed key is assigned to a fresh object. */
  method KeepSafe(headers: Headers) returns (result: Headers)
    ensures result == SafeObject(headers)
  {
    result := [];
    var i := 0;
    while i < |headers|
      invariant 0 <= i <= |headers|
      invariant result == Assign(SafeEntries(headers[..i]))
    {
      var (key, value) := headers[i];
      assert headers[..i + 1][..i] == headers[..i];
      if IsSafe(key) {
        var prefix := SafeEntries(headers[..i]);
        assert (prefix + [(key, value)])[..|prefix|] == prefix;
        result := Put(result, key, value);
      }
      i := i + 1;
    }
    assert headers[..|headers|] == headers;
  }

  /** `createCorsHeaders(headers)`, as written. */
  method CreateCorsHeaders(headers: Headers) returns (result: Headers)
    ensures result == CorsHeaders(headers)
  {
    result := KeepSafe(headers);
    if !Truthy(Get(result, CacheControl)) {
      result := Put(result, CacheControl, DefaultCacheControl);
    }
    result := Put(result, AllowOrigin, "*");
  }

  /** As written, with no upstream entry under the exact key `Cache-Control`
      (Fetch hands names over lower-cased, so there never is one) the filter
      emits `Cache-Control: no-store`, for audio as for API responses. */
  lemma NoStoreWithoutExactKey(h: Headers)
    requires !HasKey(h, CacheControl)
    ensures Get(CorsHeaders(h), CacheControl) == Some(DefaultCacheControl)
  {
    CorsHeadersGet(h, CacheControl);
  }

  /** As written, an upstream `cache-control: max-age=60` is relayed and then
      followed by a second, conflicting `Cache-Control: no-store`. */
  lemma LowercaseCacheControlShadowed()
    ensures CorsHeaders([("cache-control", "max-age=60")])
            == [("cache-control", "max-age=60"), (CacheControl, DefaultCacheControl), (AllowOrigin, "*")]
  {
    var x := ("cache-control", "max-age=60");
    LowerCacheControlSafe();
    SafeEntriesSingle(x);
    AssignSingle(x);
    assert x.0[0] != CacheControl[0];
    assert !HasKey([x], CacheControl);
    var y := (CacheControl, DefaultCacheControl);
    assert [x] + [y] == [x, y];
    assert !HasKey([x, y], AllowOrigin) by {
      assert |x.0| != |AllowOrigin| && |y.0| != |AllowOrigin|;
    }
    assert [x, y] + [(AllowOrigin, "*")] == [x, y, (AllowOrigin, "*")];
  }

  lemma LowerCacheControlSafe()
    ensures IsSafe("cache-control")
  {
    HeaderNames();
    ToLowerIdempotent(CacheControl);
  }

  lemma SafeEntriesSingle(x: (string, string))
    requires IsSafe(x.0)
    ensures SafeEntries([x]) == [x]
  {
    assert [x][..0] == [];
  }

  lemma AssignSingle<V>(x: (string, V))
    ensures Assign([x]) == [x]
  {
    assert [x][..0] == [];
  }

  datatype Mode = Audio | Api

  /** Some entry has name `lname` in any letter case and a non-empty value. */
  predicate HasTruthyCI(h: Headers, lname: string) {
    exists i :: 0 <= i < |h| && ToLower(h[i].0) == lname && h[i].1 != ""
  }

  function CacheDefault(mode: Mode): string {
    match mode
    case Audio => AudioCacheControl
    case Api => DefaultCacheControl
  }

  /** The filter the handlers' own fallbacks aim at. The audio handler
      writes `public, max-age=3600` when no cache policy survives
      `createCorsHeaders` (api/proxy.js:103-105), a branch that is only
      reachable if a missing upstream policy is left missing there; the
      API handler writes the JSON content type when none survives
      (api/proxy.js:160-162), a default for a response without one, while
      the lower-case `content-type` that `fetch` reports is never seen by
      that exact-case test. So presence is checked case-insensitively, an
      absent cache policy gets the per-mode default (one hour for audio,
      `no-store` for API), and an absent API content type gets the JSON
      default. */
  function ResponseHeaders(h: Headers, mode: Mode): (r: Headers)
    ensures DistinctKeys(r)
    ensures Get(r, AllowOrigin) == Some("*")
  {
    WithContentDefault(Put(WithCacheDefault(SafeObject(h), mode), AllowOrigin, "*"), mode)
  }

  /** The per-mode cache policy, unless some letter case of `cache-control`
      already carries one. */
  function WithCacheDefault(kept: Headers, mode: Mode): Headers {
    if HasTruthyCI(kept, "cache-control") then kept
    else Put(kept, CacheControl, CacheDefault(mode))
  }

  /** The JSON content type for API responses, unless some letter case of
      `content-type` already carries one. */
  function WithContentDefault(cors: Headers, mode: Mode): Headers {
    if mode == Api && !HasTruthyCI(cors, "content-type") then Put(cors, ContentType, JsonContentType)
    else cors
  }

  /** The corrected filter, step by step as `createCorsHeaders` and the
      handlers' fallbacks are written, with the presence checks made
      case-insensitive. */
  method FilterResponseHeaders(headers: Headers, mode: Mode) returns (result: Headers)
    ensures result == ResponseHeaders(headers, mode)
  {
    result := KeepSafe(headers);
    if !HasTruthyCI(result, "cache-control") {
      result := Put(result, CacheControl, CacheDefault(mode));
    }
    result := Put(result, AllowOrigin, "*");
    if mode == Api && !HasTruthyCI(result, "content-type") {
      result := Put(result, ContentType, JsonContentType);
    }
  }

  /** Assigning a name of another case-insensitive class does not change
      whether a non-empty `lname` entry exists. */
  lemma {:induction false} PutKeepsTruthyCI(e: Headers, k: string, v: string, lname: string)
    requires ToLower(k) != lname
    ensures HasTruthyCI(Put(e, k, v), lname) <==> HasTruthyCI(e, lname)
  {
    if e == [] {
      TruthyCICons((k, v), [], lname);
      assert Put(e, k, v) == [(k, v)] + [];
    } else {
      assert e == [e[0]] + e[1..];
      TruthyCICons(e[0], e[1..], lname);
      if e[0].0 == k {
        TruthyCICons((k, v), e[1..], lname);
      } else {
        PutKeepsTruthyCI(e[1..], k, v, lname);
        TruthyCICons(e[0], Put(e[1..], k, v), lname);
      }
    }
  }

  /** A non-empty `lname` entry is the first pair or one of the rest. */
  lemma TruthyCICons(p: (string, string), rest: Headers, lname: string)
    ensures HasTruthyCI([p] + rest, lname)
            <==> (ToLower(p.0) == lname && p.1 != "") || HasTruthyCI(rest, lname)
  {
    var r := [p] + rest;
    if ToLower(p.0) == lname && p.1 != "" {
      assert r[0] == p;
    }
    if HasTruthyCI(rest, lname) {
      var i :| 0 <= i < |rest| && ToLower(rest[i].0) == lname && rest[i].1 != "";
      assert r[i + 1] == rest[i];
    }
    if HasTruthyCI(r, lname) {
      var i :| 0 <= i < |r| && ToLower(r[i].0) == lname && r[i].1 != "";
      if i > 0 {
        assert r[i] == rest[i - 1];
      }
    }
  }

  /** For a safe-listed lower-case name, filtering keeps every entry of it. */
  lemma {:induction false} SafeEntriesTruthyCI(h: Headers, lname: string)
    requires lname in SafeResponseHeaders
    ensures HasTruthyCI(SafeEntries(h), lname) <==> HasTruthyCI(h, lname)
  {
    if h != [] {
      var init := h[..|h| - 1];
      var last := h[|h| - 1];
      var s := SafeEntries(init);
      SafeEntriesTruthyCI(init, lname);
      assert h == init + [last];
      if HasTruthyCI(h, lname) {
        var i :| 0 <= i < |h| && ToLower(h[i].0) == lname && h[i].1 != "";
        if i < |init| {
          assert init[i] == h[i];
          var j :| 0 <= j < |s| && ToLower(s[j].0) == lname && s[j].1 != "";
          if IsSafe(last.0) {
            assert (s + [last])[j] == s[j];
          }
        } else {
          assert IsSafe(last.0);
          assert (s + [last])[|s|] == last;
        }
      }
      if IsSafe(last.0) {
        var r := s + [last];
        if HasTruthyCI(r, lname) {
          var i :| 0 <= i < |r| && ToLower(r[i].0) == lname && r[i].1 != "";
          if i < |s| {
            assert r[i] == s[i];
            var j :| 0 <= j < |init| && ToLower(init[j].0) == lname && init[j].1 != "";
            assert h[j] == init[j];
          } else {
            assert h[|h| - 1] == last;
          }
        }
      } else {
        if HasTruthyCI(s, lname) {
          var j :| 0 <= j < |init| && ToLower(init[j].0) == lname && init[j].1 != "";
          assert h[j] == init[j];
        }
      }
    }
  }

  lemma {:induction false} SafeEntriesDistinct(h: Headers)
    requires DistinctKeys(h)
    ensures DistinctKeys(SafeEntries(h))
    ensures forall k :: HasKey(SafeEntries(h), k) ==> HasKey(h, k)
  {
    if h != [] {
      var init := h[..|h| - 1];
      var last := h[|h| - 1];
      assert DistinctKeys(init) by {
        forall i, j | 0 <= i < j < |init| ensures init[i].0 != init[j].0 {
          assert init[i] == h[i] && init[j] == h[j];
        }
      }
      SafeEntriesDistinct(init);
      var s := SafeEntries(init);
      forall k | HasKey(init, k) ensures HasKey(h, k) {
        var i :| 0 <= i < |init| && init[i].0 == k;
        assert h[i] == init[i];
      }
      if IsSafe(last.0) {
        var r := s + [last];
        forall i | 0 <= i < |s| ensures s[i].0 != last.0 {
          assert HasKey(s, s[i].0);
          var j :| 0 <= j < |init| && init[j].0 == s[i].0;
          assert h[j] == init[j];
        }
        forall i, j | 0 <= i < j < |r| ensures r[i].0 != r[j].0 {
          assert r[i] == s[i];
          if j < |s| {
            assert r[j] == s[j];
          }
        }
        forall k | HasKey(r, k) ensures HasKey(h, k) {
          var i :| 0 <= i < |r| && r[i].0 == k;
          if i < |s| {
            assert r[i] == s[i];
            assert HasKey(s, k);
          }
        }
      }
    }
  }

  /** For the object Fetch hands over (no repeated name), the filter keeps
      the upstream cache policy and content type whenever some letter case of
      them carries a value, and supplies the per-mode default otherwise;
      audio without a cache policy is cached for an hour. */
  lemma ResponseHeadersDefaults(h: Headers, mode: Mode)
    requires DistinctKeys(h)
    ensures var r := ResponseHeaders(h, mode);
      && Get(r, AllowOrigin) == Some("*")
      && (HasTruthyCI(h, "cache-control") ==> Get(r, CacheControl) == Get(h, CacheControl))
      && (!HasTruthyCI(h, "cache-control") ==> Get(r, CacheControl) == Some(CacheDefault(mode)))
      && (HasTruthyCI(h, "content-type") ==> Get(r, ContentType) == Get(h, ContentType))
      && (mode == Api && !HasTruthyCI(h, "content-type") ==> Get(r, ContentType) == Some(JsonContentType))
      && (mode == Audio ==> Get(r, ContentType) == Get(h, ContentType))
  {
    ResponseCacheControl(h, mode);
    ResponseContentType(h, mode);
  }

  /** A safe-listed name, in an object without repeated names, keeps its
      value and its case-insensitive presence through the safe-list step. */
  lemma KeptFacts(h: Headers, name: string, lname: string)
    requires DistinctKeys(h)
    requires ToLower(name) == lname && lname in SafeResponseHeaders
    ensures Get(SafeObject(h), name) == Get(h, name)
    ensures HasTruthyCI(SafeObject(h), lname) <==> HasTruthyCI(h, lname)
  {
    SafeEntriesDistinct(h);
    AssignDistinct(SafeEntries(h));
    SafeEntriesTruthyCI(h, lname);
    SafeObjectGet(h, name);
    LastValueDistinct(h, name);
  }

  /** The allow-origin and cache-policy half of `ResponseHeadersDefaults`. */
  lemma ResponseCacheControl(h: Headers, mode: Mode)
    requires DistinctKeys(h)
    ensures var r := ResponseHeaders(h, mode);
      && Get(r, AllowOrigin) == Some("*")
      && (HasTruthyCI(h, "cache-control") ==> Get(r, CacheControl) == Get(h, CacheControl))
      && (!HasTruthyCI(h, "cache-control") ==> Get(r, CacheControl) == Some(CacheDefault(mode)))
  {
    KeptFacts(h, CacheControl, "cache-control");
    var cached := WithCacheDefault(SafeObject(h), mode);
    var cors := Put(cached, AllowOrigin, "*");
    ContentDefaultKeeps(cors, mode, CacheControl);
    ContentDefaultKeeps(cors, mode, AllowOrigin);
  }

  /** The JSON default touches no other name. */
  lemma ContentDefaultKeeps(cors: Headers, mode: Mode, k: string)
    requires k != ContentType
    ensures Get(WithContentDefault(cors, mode), k) == Get(cors, k)
  {
  }

  /** The content-type half of `ResponseHeadersDefaults`. */
  lemma ResponseContentType(h: Headers, mode: Mode)
    requires DistinctKeys(h)
    ensures var r := ResponseHeaders(h, mode);
      && (HasTruthyCI(h, "content-type") ==> Get(r, ContentType) == Get(h, ContentType))
      && (mode == Api && !HasTruthyCI(h, "content-type") ==> Get(r, ContentType) == Some(JsonContentType))
      && (mode == Audio ==> Get(r, ContentType) == Get(h, ContentType))
  {
    HeaderNames();
    KeptFacts(h, ContentType, "content-type");
    var kept := SafeObject(h);
    CacheDefaultKeepsContentType(kept, mode);
    var cached := WithCacheDefault(kept, mode);
    PutKeepsTruthyCI(cached, AllowOrigin, "*", "content-type");
    assert Get(Put(cached, AllowOrigin, "*"), ContentType) == Get(cached, ContentType);
  }

  /** The cache default leaves the content type and its presence alone. */
  lemma CacheDefaultKeepsContentType(kept: Headers, mode: Mode)
    ensures Get(WithCacheDefault(kept, mode), ContentType) == Get(kept, ContentType)
    ensures HasTruthyCI(WithCacheDefault(kept, mode), "content-type") <==> HasTruthyCI(kept, "content-type")
  {
    if !HasTruthyCI(kept, "cache-control") {
      HeaderNames();
      PutKeepsTruthyCI(kept, CacheControl, CacheDefault(mode), "content-type");
    }
  }

  lemma NoCacheControlIn(a: Headers)
    requires a == [("content-type", "audio/mpeg")]
    ensures !HasTruthyCI(a, "cache-control")
  {
    forall i | 0 <= i < |a| ensures ToLower(a[i].0) != "cache-control" {
      assert ToLower(a[i].0)[2] == 'n';
    }
  }

  lemma LowerCacheControlIn(b: Headers)
    requires b == [("cache-control", "max-age=60")]
    ensures HasTruthyCI(b, "cache-control") && !HasKey(b, CacheControl)
  {
    assert ToLower(b[0].0) == "cache-control";
    forall i | 0 <= i < |b| ensures b[i].0 != CacheControl {
      assert b[i].0[0] == 'c';
    }
  }

  /** With the corrected filter an audio response that names no cache policy
      is cached for an hour, and a lower-case upstream policy is relayed alone. */
  lemma CorrectedFilterExamples()
    ensures Get(ResponseHeaders([("content-type", "audio/mpeg")], Audio), CacheControl)
            == Some(AudioCacheControl)
    ensures !HasKey(ResponseHeaders([("cache-control", "max-age=60")], Api), CacheControl)
  {
    var a := [("content-type", "audio/mpeg")];
    NoCacheControlIn(a);
    ResponseHeadersDefaults(a, Audio);
    var b := [("cache-control", "max-age=60")];
    LowerCacheControlIn(b);
    ResponseHeadersDefaults(b, Api);
  }
}
