/** A JavaScript plain object used as a dictionary (and, with the same shape,
    a `URLSearchParams` list): the sequence of its own string-keyed entries in
    insertion order. Keys are compared exactly, so `Cache-Control` and
    `cache-control` are two different keys. */
module JsObject {
  import opened JsText

  type Entries<V> = seq<(string, V)>

  predicate HasKey<V>(e: Entries<V>, k: string) {
    exists i :: 0 <= i < |e| && e[i].0 == k
  }

  /** What every object satisfies: no key occurs twice. */
  predicate DistinctKeys<V>(e: Entries<V>) {
    forall i, j :: 0 <= i < j < |e| ==> e[i].0 != e[j].0
  }

  /** `obj[k]`: the value stored under `k`, or `undefined` (None). On a list
      with repeated keys this is the first one, as `URLSearchParams.get`. */
  function Get<V>(e: Entries<V>, k: string): (r: Option<V>)
    ensures r.None? <==> !HasKey(e, k)
    ensures DistinctKeys(e) ==> forall i :: 0 <= i < |e| && e[i].0 == k ==> r == Some(e[i].1)
  {
    if e == [] then None
    else if e[0].0 == k then Some(e[0].1)
    else
      var r := Get(e[1..], k);
      assert forall i :: 1 <= i < |e| ==> e[i] == e[1..][i - 1];
      r
  }

  /** JavaScript truthiness of a string-or-undefined value. */
  predicate Truthy(v: Option<string>) {
    v.Some? && v.value != ""
  }

  /** `obj[k] = v`: an existing key keeps its position and takes the new
      value; a new key is appended. */
  function Put<V>(e: Entries<V>, k: string, v: V): (r: Entries<V>)
    ensures Get(r, k) == Some(v)
    ensures forall k' :: k' != k ==> Get(r, k') == Get(e, k')
    ensures forall k' :: HasKey(r, k') <==> HasKey(e, k') || k' == k
    ensures HasKey(e, k) ==> |r| == |e|
    ensures !HasKey(e, k) ==> r == e + [(k, v)]
    ensures DistinctKeys(e) ==> DistinctKeys(r)
  {
    if e == [] then [(k, v)]
    else if e[0].0 == k then
      var r := [(k, v)] + e[1..];
      assert forall i :: 1 <= i < |e| ==> r[i] == e[i];
      r
    else
      var tail := Put(e[1..], k, v);
      PutConsGet(e, k, v, tail);
      PutConsKeys(e, k, tail);
      PutConsShape(e, k, v, tail);
      PutConsDistinct(e, k, tail);
      [e[0]] + tail
  }

  /** The step of `Put` past a first entry with another key: lookups. */
  lemma PutConsGet<V>(e: Entries<V>, k: string, v: V, tail: Entries<V>)
    requires e != [] && e[0].0 != k
    requires Get(tail, k) == Some(v)
    requires forall k' :: k' != k ==> Get(tail, k') == Get(e[1..], k')
    ensures Get([e[0]] + tail, k) == Some(v)
    ensures forall k' :: k' != k ==> Get([e[0]] + tail, k') == Get(e, k')
  {
    var r := [e[0]] + tail;
    assert r[1..] == tail;
  }

  /** The step of `Put` past a first entry with another key: key sets. */
  lemma PutConsKeys<V>(e: Entries<V>, k: string, tail: Entries<V>)
    requires e != [] && e[0].0 != k
    requires forall k' :: HasKey(tail, k') <==> HasKey(e[1..], k') || k' == k
    ensures forall k' :: HasKey([e[0]] + tail, k') <==> HasKey(e, k') || k' == k
  {
    forall k' ensures HasKey([e[0]] + tail, k') <==> HasKey(e, k') || k' == k {
      HasKeyCons(e[0], tail, k');
      HasKeyCons(e[0], e[1..], k');
      assert [e[0]] + e[1..] == e;
    }
  }

  /** A key occurs in a list with a first pair `p` when it is `p`'s key or
      occurs in the rest. */
  lemma HasKeyCons<V>(p: (string, V), rest: Entries<V>, k: string)
    ensures HasKey([p] + rest, k) <==> p.0 == k || HasKey(rest, k)
  {
    var r := [p] + rest;
    if p.0 == k {
      assert r[0].0 == k;
    }
    if HasKey(rest, k) {
      var i :| 0 <= i < |rest| && rest[i].0 == k;
      assert r[i + 1] == rest[i];
    }
    if HasKey(r, k) && p.0 != k {
      var i :| 0 <= i < |r| && r[i].0 == k;
      assert r[i] == rest[i - 1];
    }
  }

  /** A key occurs in a list with a last pair `p` when it is `p`'s key or
      occurs before it. */
  lemma HasKeySnoc<V>(init: Entries<V>, p: (string, V), k: string)
    ensures HasKey(init + [p], k) <==> HasKey(init, k) || p.0 == k
  {
    var r := init + [p];
    if p.0 == k {
      assert r[|init|].0 == k;
    }
    if HasKey(init, k) {
      var i :| 0 <= i < |init| && init[i].0 == k;
      assert r[i] == init[i];
    }
    if HasKey(r, k) && p.0 != k {
      var i :| 0 <= i < |r| && r[i].0 == k;
      assert r[i] == init[i];
    }
  }

  /** The step of `Put` past a first entry with another key: an existing
      key keeps the length, a new one is appended. */
  lemma PutConsShape<V>(e: Entries<V>, k: string, v: V, tail: Entries<V>)
    requires e != [] && e[0].0 != k
    requires HasKey(e[1..], k) ==> |tail| == |e[1..]|
    requires !HasKey(e[1..], k) ==> tail == e[1..] + [(k, v)]
    ensures HasKey(e, k) ==> |[e[0]] + tail| == |e|
    ensures !HasKey(e, k) ==> [e[0]] + tail == e + [(k, v)]
  {
    if HasKey(e, k) {
      var i :| 0 <= i < |e| && e[i].0 == k;
      assert e[1..][i - 1] == e[i];
    } else {
      assert !HasKey(e[1..], k) by {
        forall i | 0 <= i < |e[1..]| ensures e[1..][i].0 != k {
          assert e[1..][i] == e[i + 1];
        }
      }
      assert e == [e[0]] + e[1..];
    }
  }

  /** The step of `Put` past a first entry with another key: no key is
      repeated. */
  lemma PutConsDistinct<V>(e: Entries<V>, k: string, tail: Entries<V>)
    requires e != [] && e[0].0 != k
    requires forall k' :: HasKey(tail, k') <==> HasKey(e[1..], k') || k' == k
    requires DistinctKeys(e[1..]) ==> DistinctKeys(tail)
    ensures DistinctKeys(e) ==> DistinctKeys([e[0]] + tail)
  {
    var r := [e[0]] + tail;
    if DistinctKeys(e) {
      assert DistinctKeys(e[1..]) by {
        forall i, j | 0 <= i < j < |e[1..]| ensures e[1..][i].0 != e[1..][j].0 {
          assert e[1..][i] == e[i + 1] && e[1..][j] == e[j + 1];
        }
      }
      assert !HasKey(e[1..], e[0].0) by {
        forall i | 0 <= i < |e[1..]| ensures e[1..][i].0 != e[0].0 {
          assert e[1..][i] == e[i + 1];
        }
      }
      assert !HasKey(tail, e[0].0);
      forall i, j | 0 <= i < j < |r| ensures r[i].0 != r[j].0 {
        if i > 0 {
          assert r[i] == tail[i - 1] && r[j] == tail[j - 1];
        } else {
          assert r[j] == tail[j - 1];
          assert HasKey(tail, r[j].0);
        }
      }
    }
  }

  /** The value of the last pair with key `k`, or None. */
  function LastValue<V>(pairs: Entries<V>, k: string): (r: Option<V>)
    ensures r.None? <==> !HasKey(pairs, k)
  {
    if pairs == [] then None
    else if pairs[|pairs| - 1].0 == k then Some(pairs[|pairs| - 1].1)
    else LastValue(pairs[..|pairs| - 1], k)
  }

  /** The object obtained by assigning every pair, in order, to `{}`: each
      key once, holding the value of its last pair. */
  function Assign<V>(pairs: Entries<V>): (r: Entries<V>)
    ensures DistinctKeys(r)
    ensures forall k :: Get(r, k) == LastValue(pairs, k)
  {
    if pairs == [] then []
    else
      var last := pairs[|pairs| - 1];
      Put(Assign(pairs[..|pairs| - 1]), last.0, last.1)
  }

  /** In a list without repeated keys the last pair of a key is its only one. */
  lemma {:induction false} LastValueDistinct<V>(pairs: Entries<V>, k: string)
    requires DistinctKeys(pairs)
    ensures LastValue(pairs, k) == Get(pairs, k)
  {
    if pairs != [] {
      var init := pairs[..|pairs| - 1];
      assert DistinctKeys(init) by {
        forall i, j | 0 <= i < j < |init| ensures init[i].0 != init[j].0 {
          assert init[i] == pairs[i] && init[j] == pairs[j];
        }
      }
      LastValueDistinct(init, k);
      if pairs[|pairs| - 1].0 != k {
        assert forall i :: 0 <= i < |init| ==> init[i] == pairs[i];
        assert HasKey(pairs, k) ==> HasKey(init, k);
        if HasKey(pairs, k) {
          var i :| 0 <= i < |pairs| && pairs[i].0 == k;
          assert init[i] == pairs[i];
        }
      }
    }
  }

  /** Assigning the entries of an object to `{}` rebuilds the same object. */
  lemma {:induction false} AssignDistinct<V>(pairs: Entries<V>)
    requires DistinctKeys(pairs)
    ensures Assign(pairs) == pairs
  {
    if pairs != [] {
      var init := pairs[..|pairs| - 1];
      var last := pairs[|pairs| - 1];
      assert DistinctKeys(init) by {
        forall i, j | 0 <= i < j < |init| ensures init[i].0 != init[j].0 {
          assert init[i] == pairs[i] && init[j] == pairs[j];
        }
      }
      AssignDistinct(init);
      forall i | 0 <= i < |init| ensures init[i].0 != last.0 {
        assert init[i] == pairs[i];
      }
      assert init + [last] == pairs;
    }
  }

  /** `Get` finds the first entry with the key. */
  lemma {:induction false} GetFirst<V>(e: Entries<V>, i: nat, k: string)
    requires i < |e| && e[i].0 == k
    requires forall j :: 0 <= j < i ==> e[j].0 != k
    ensures Get(e, k) == Some(e[i].1)
  {
    if i > 0 {
      assert e[1..][i - 1] == e[i];
      assert forall j :: 0 <= j < i - 1 ==> e[1..][j] == e[j + 1];
      GetFirst(e[1..], i - 1, k);
    }
  }

  /** Looking a key up in a concatenation searches the left part first. */
  lemma {:induction false} GetAppend<V>(e: Entries<V>, f: Entries<V>, k: string)
    ensures Get(e + f, k) == if HasKey(e, k) then Get(e, k) else Get(f, k)
  {
    if e != [] {
      assert (e + f)[1..] == e[1..] + f;
      GetAppend(e[1..], f, k);
      if e[0].0 != k {
        assert HasKey(e, k) ==> HasKey(e[1..], k) by {
          if HasKey(e, k) {
            var i :| 0 <= i < |e| && e[i].0 == k;
            assert e[1..][i - 1] == e[i];
          }
        }
        assert HasKey(e[1..], k) ==> HasKey(e, k) by {
          if HasKey(e[1..], k) {
            var i :| 0 <= i < |e[1..]| && e[1..][i].0 == k;
            assert e[i + 1] == e[1..][i];
          }
        }
      }
    } else {
      assert e + f == f;
    }
  }
}
