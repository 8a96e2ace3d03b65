/** The query rewriting of the metadata-API path: the inbound
    `URLSearchParams` list is copied onto the upstream API URL with `set`,
    skipping `target` and `callback`. */
module SearchParams {
  import opened JsText
  import opened JsObject

  /** A `URLSearchParams` list: name-value pairs in order, names may repeat. */
  type Query = Entries<string>

  /** Number of pairs named `name`. */
  function Occurrences(q: Query, name: string): nat {
    if q == [] then 0 else (if q[0].0 == name then 1 else 0) + Occurrences(q[1..], name)
  }

  /** The pairs of `q` not named `name`, in their order. */
  function Without(q: Query, name: string): (r: Query)
    ensures !HasKey(r, name)
    ensures forall k :: k != name ==> Get(r, k) == Get(q, k)
    ensures !HasKey(q, name) ==> r == q
  {
    if q == [] then []
    else
      var rest := Without(q[1..], name);
      assert forall i :: 0 <= i < |q[1..]| ==> q[1..][i] == q[i + 1];
      if q[0].0 == name then rest
      else
        assert q == [q[0]] + q[1..];
        assert forall k :: HasKey(rest, k) ==> HasKey([q[0]] + rest, k) by {
          forall k | HasKey(rest, k) ensures HasKey([q[0]] + rest, k) {
            var i :| 0 <= i < |rest| && rest[i].0 == k;
            assert ([q[0]] + rest)[i + 1] == rest[i];
          }
        }
        assert ([q[0]] + rest)[1..] == rest;
        [q[0]] + rest
  }

  /** `URLSearchParams.set(name, value)` (section 6.2 of the WHATWG URL
      Standard): the first pair named `name` takes the value and the other
      pairs of that name are removed; with no such pair one is appended. */
  function SetParam(q: Query, name: string, value: string): (r: Query)
    ensures Get(r, name) == Some(value)
    ensures Occurrences(r, name) == 1
    ensures Without(r, name) == Without(q, name)
    ensures DistinctKeys(q) ==> r == Put(q, name, value)
  {
    if q == [] then [(name, value)]
    else if q[0].0 == name then
      var rest := Without(q[1..], name);
      OccurrencesAbsent(rest, name);
      var r := [(name, value)] + rest;
      assert r[1..] == rest;
      assert forall i :: 0 <= i < |q[1..]| ==> q[1..][i] == q[i + 1];
      assert Without(r, name) == Without(rest, name);
      assert Without(rest, name) == rest;
      r
    else
      var tail := SetParam(q[1..], name, value);
      var r := [q[0]] + tail;
      assert r[1..] == tail;
      assert DistinctKeys(q) ==> DistinctKeys(q[1..]) by {
        if DistinctKeys(q) {
          forall i, j | 0 <= i < j < |q[1..]| ensures q[1..][i].0 != q[1..][j].0 {
            assert q[1..][i] == q[i + 1] && q[1..][j] == q[j + 1];
          }
        }
      }
      r
  }

  lemma {:induction false} OccurrencesAbsent(q: Query, name: string)
    requires !HasKey(q, name)
    ensures Occurrences(q, name) == 0
  {
    if q != [] {
      assert forall i :: 0 <= i < |q[1..]| ==> q[1..][i] == q[i + 1];
      OccurrencesAbsent(q[1..], name);
    }
  }

  /** The names the API path never forwards: the audio `target` and the
      JSONP `callback`. */
  predicate Forwarded(name: string) {
    name != "target" && name != "callback"
  }

  /** The upstream query after the `forEach`/`set` loop over the inbound
      parameters, starting from the parameterless API base URL. Every
      forwarded name occurs once, holding the value of its last inbound
      pair; `target` and `callback` never occur. */
  function ApiQuery(params: Query): (r: Query)
    ensures DistinctKeys(r)
  {
    if params == [] then []
    else
      var init := params[..|params| - 1];
      var (k, v) := params[|params| - 1];
      var acc := ApiQuery(init);
      if Forwarded(k) then SetParam(acc, k, v) else acc
  }

  /** Each forwarded name upstream holds the value of its last inbound pair. */
  lemma {:induction false} ApiQueryValues(params: Query, k: string)
    ensures Get(ApiQuery(params), k) == if Forwarded(k) then LastValue(params, k) else None
  {
    if params != [] {
      ApiQueryValues(params[..|params| - 1], k);
    }
  }

  /** A name is present upstream iff it is forwarded and present inbound. */
  lemma ApiQueryNames(params: Query, k: string)
    ensures HasKey(ApiQuery(params), k) <==> Forwarded(k) && HasKey(params, k)
  {
    ApiQueryValues(params, k);
  }

  /** The `forEach` loop of the API path (`apiUrl.searchParams.set` for every
      inbound pair except `target` and `callback`). */
  method BuildApiQuery(params: Query) returns (q: Query)
    ensures q == ApiQuery(params)
  {
    q := [];
    var i := 0;
    while i < |params|
      invariant 0 <= i <= |params|
      invariant q == ApiQuery(params[..i])
    {
      var (key, value) := params[i];
      assert params[..i + 1][..i] == params[..i];
      if Forwarded(key) {
        q := SetParam(q, key, value);
      }
      i := i + 1;
    }
    assert params[..|params|] == params;
  }

  lemma ApiQuerySnoc(init: Query, k: string, v: string)
    ensures ApiQuery(init + [(k, v)])
            == if Forwarded(k) then SetParam(ApiQuery(init), k, v) else ApiQuery(init)
  {
    assert (init + [(k, v)])[..|init|] == init;
  }

  /** Forwarding one more pair whose name is new appends it. */
  lemma ApiQueryAppend(init: Query, k: string, v: string)
    requires ApiQuery(init) == init
    requires Forwarded(k) && !HasKey(init, k)
    ensures ApiQuery(init + [(k, v)]) == init + [(k, v)]
  {
    ApiQuerySnoc(init, k, v);
  }

  /** A `target` or `callback` pair leaves the forwarded query as it was. */
  lemma ApiQuerySkip(init: Query, k: string, v: string)
    requires !Forwarded(k)
    ensures ApiQuery(init + [(k, v)]) == ApiQuery(init)
  {
    ApiQuerySnoc(init, k, v);
  }

  /** Inbound pairs with distinct names, none of them `target` or
      `callback`, are forwarded unchanged and in order. */
  lemma {:induction false} ApiQueryIdentity(params: Query)
    requires DistinctKeys(params)
    requires forall i :: 0 <= i < |params| ==> Forwarded(params[i].0)
    ensures ApiQuery(params) == params
  {
    if params != [] {
      var n := |params| - 1;
      var init, last := params[..n], params[n];
      assert forall i :: 0 <= i < n ==> init[i] == params[i];
      ApiQueryIdentity(init);
      assert !HasKey(init, last.0);
      ApiQueryAppend(init, last.0, last.1);
      assert init + [last] == params;
    }
  }

  lemma ApiQueryThreeNames()
    ensures ApiQuery([("types", "json"), ("source", "kuwo"), ("name", "x")])
            == [("types", "json"), ("source", "kuwo"), ("name", "x")]
  {
    ApiQueryIdentity([("types", "json"), ("source", "kuwo"), ("name", "x")]);
  }

  lemma ApiQueryDropsTargetAndCallback(init: Query, u: string, c: string)
    ensures ApiQuery(init + [("target", u), ("callback", c)]) == ApiQuery(init)
  {
    ApiQuerySkip(init, "target", u);
    ApiQuerySkip(init + [("target", u)], "callback", c);
    assert init + [("target", u)] + [("callback", c)] == init + [("target", u), ("callback", c)];
  }

  /** `?types=json&source=kuwo&name=x&target=http://a&callback=cb` forwards
      `types=json&source=kuwo&name=x`. */
  lemma ApiQueryExample()
    ensures ApiQuery([("types", "json"), ("source", "kuwo"), ("name", "x"),
                      ("target", "http://a"), ("callback", "cb")])
            == [("types", "json"), ("source", "kuwo"), ("name", "x")]
  {
    var init := [("types", "json"), ("source", "kuwo"), ("name", "x")];
    ApiQueryThreeNames();
    ApiQueryDropsTargetAndCallback(init, "http://a", "cb");
    assert init + [("target", "http://a"), ("callback", "cb")]
        == [("types", "json"), ("source", "kuwo"), ("name", "x"),
            ("target", "http://a"), ("callback", "cb")];
  }

  /** A repeated name keeps the position of its first pair and the value of
      its last: `?types=a&source=kuwo&types=b` forwards `types=b&source=kuwo`. */
  lemma ApiQueryRepeatedName()
    ensures ApiQuery([("types", "a"), ("source", "kuwo"), ("types", "b")])
            == [("types", "b"), ("source", "kuwo")]
  {
    var a, b, c := ("types", "a"), ("source", "kuwo"), ("types", "b");
    ApiQueryIdentity([a, b]);
    ApiQuerySnoc([a, b], c.0, c.1);
    assert [a, b] + [c] == [a, b, c];
    assert [c] + [a, b][1..] == [c, b];
  }
}
