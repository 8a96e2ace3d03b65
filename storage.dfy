/** The key/value storage endpoint `functions/api/storage.ts`: a D1 table
    `kv_store(key, value)` read by GET, upserted by POST and pruned by
    DELETE, with OPTIONS and method dispatch in `onRequest`. The table is a
    map from key to stored text; `env.DB` is a possibly-null Database. */
module Storage {
  import opened JsText
  import opened JsObject

  /** One statement of a `DB.batch`. */
  datatype Statement = Upsert(key: string, value: string) | Remove(key: string)

  function Apply(t: map<string, string>, s: Statement): map<string, string> {
    match s
    case Upsert(k, v) => t[k := v]
    case Remove(k) => t - {k}
  }

  /** The statements of a batch applied in order. */
  function ApplyAll(t: map<string, string>, stmts: seq<Statement>): map<string, string> {
    if stmts == [] then t else Apply(ApplyAll(t, stmts[..|stmts| - 1]), stmts[|stmts| - 1])
  }

  /** Rows read from the table: one per key, each with its stored value. */
  predicate RowsOf(table: map<string, string>, rows: Entries<string>) {
    && DistinctKeys(rows)
    && forall i :: 0 <= i < |rows| ==> rows[i].0 in table && rows[i].1 == table[rows[i].0]
  }

  /** The D1 binding, reduced to the `kv_store` table. */
  class Database {
    var table: map<string, string>

    constructor (init: map<string, string>)
      ensures table == init
    {
      table := init;
    }

    /** `SELECT key, value FROM kv_store WHERE key IN (...)`. */
    method SelectIn(keys: seq<string>) returns (rows: Entries<string>)
      ensures RowsOf(table, rows)
      ensures forall k :: HasKey(rows, k) <==> k in table && k in keys
    {
      rows := [];
      var i := 0;
      while i < |keys|
        invariant 0 <= i <= |keys|
        invariant RowsOf(table, rows)
        invariant forall k :: HasKey(rows, k) <==> k in table && k in keys[..i]
      {
        var k := keys[i];
        assert keys[..i + 1] == keys[..i] + [k];
        if k in table && !HasKey(rows, k) {
          rows := Put(rows, k, table[k]);
        }
        i := i + 1;
      }
      assert keys[..|keys|] == keys;
    }

    /** `SELECT key, value FROM kv_store`. */
    method SelectAll() returns (rows: Entries<string>)
      ensures RowsOf(table, rows)
      ensures forall k :: HasKey(rows, k) <==> k in table
    {
      rows := [];
      var remaining := table.Keys;
      while remaining != {}
        invariant remaining <= table.Keys
        invariant RowsOf(table, rows)
        invariant forall k :: HasKey(rows, k) <==> k in table && k !in remaining
        decreases remaining
      {
        var k :| k in remaining;
        rows := Put(rows, k, table[k]);
        remaining := remaining - {k};
      }
    }

    /** `DB.batch(statements)`: every statement takes effect, in order, as
        one update of the table. */
    method Batch(statements: seq<Statement>)
      modifies this
      ensures table == ApplyAll(old(table), statements)
    {
      table := ApplyAll(table, statements);
    }
  }

  /** The JSON bodies the endpoint answers with. */
  datatype Body =
    | Availability(d1Available: bool)
    | Snapshot(d1Available: bool, data: Entries<Option<string>>)
    | Updated(d1Available: bool, updated: nat)
    | Deleted(d1Available: bool, deleted: nat)
    | Failure(error: string)

  /** A response: status, headers, and a JSON body or `null`. */
  datatype Response = Response(status: int, headers: Entries<string>, body: Option<Body>)

  const JsonHeaders: Entries<string> :=
    [("Content-Type", "application/json"),
     ("Access-Control-Allow-Origin", "*"),
     ("Access-Control-Allow-Methods", "GET,POST,DELETE,OPTIONS"),
     ("Access-Control-Allow-Headers", "Content-Type")]

  /** `jsonResponse(body, status)`. */
  function Json(status: int, body: Body): Response {
    Response(status, JsonHeaders, Some(body))
  }

  /** The entries of `xs` that are not empty, in order. */
  function NonEmpty(xs: seq<string>): (r: seq<string>)
    ensures forall i :: 0 <= i < |r| ==> r[i] != ""
    ensures forall x :: x in r <==> x in xs && x != ""
    ensures (forall i :: 0 <= i < |xs| ==> xs[i] != "") ==> r == xs
    ensures |r| <= |xs|
  {
    if xs == [] then []
    else
      var rest := NonEmpty(xs[1..]);
      assert forall x :: x in xs <==> x == xs[0] || x in xs[1..];
      if xs[0] != "" then [xs[0]] + rest else rest
  }

  /** Filtering works piece by piece: the kept names of a concatenation are
      the kept names of each part, in order and with their repetitions. */
  lemma {:induction false} NonEmptyAppend(a: seq<string>, b: seq<string>)
    ensures NonEmpty(a + b) == NonEmpty(a) + NonEmpty(b)
  {
    if a == [] {
      assert a + b == b;
    } else {
      assert (a + b)[1..] == a[1..] + b;
      NonEmptyAppend(a[1..], b);
      if a[0] != "" {
        assert NonEmpty(a + b) == [a[0]] + NonEmpty(a[1..] + b);
        assert NonEmpty(a) == [a[0]] + NonEmpty(a[1..]);
      } else {
        assert NonEmpty(a + b) == NonEmpty(a[1..] + b);
        assert NonEmpty(a) == NonEmpty(a[1..]);
      }
    }
  }

  /** A single name is kept exactly when it is not empty. */
  lemma NonEmptySingle(x: string)
    ensures NonEmpty([x]) == if x == "" then [] else [x]
  {
    assert [x][1..] == [];
  }

  /** `pieces.map((key) => key.trim())`. */
  function TrimAll(pieces: seq<string>): (r: seq<string>)
    ensures |r| == |pieces|
    ensures forall i :: 0 <= i < |r| ==> r[i] == Trim(pieces[i])
  {
    seq(|pieces|, i requires 0 <= i < |pieces| => Trim(pieces[i]))
  }

  /** `keysParam.split(",").map((key) => key.trim()).filter(Boolean)`: the
      non-empty trimmed comma-separated names. */
  function ParseKeys(keysParam: string): (r: seq<string>)
    ensures forall i :: 0 <= i < |r| ==> r[i] != "" && Trimmed(r[i]) && ',' !in r[i]
  {
    var pieces := Split(keysParam, ',');
    var trimmed := TrimAll(pieces);
    var r := NonEmpty(trimmed);
    forall i | 0 <= i < |r| ensures Trimmed(r[i]) && ',' !in r[i] {
      assert r[i] in trimmed;
      var j :| 0 <= j < |trimmed| && trimmed[j] == r[i];
      TrimOmits(pieces[j], ',');
    }
    r
  }

  /** A list of non-empty, trimmed names without commas survives the round
      trip through the `keys` parameter; the empty list is the empty
      parameter, which reads every row. */
  lemma ParseKeysJoin(keys: seq<string>)
    requires forall i :: 0 <= i < |keys| ==> keys[i] != "" && Trimmed(keys[i]) && ',' !in keys[i]
    ensures ParseKeys(Join(keys, ",")) == keys
  {
    if keys == [] {
      ParseKeysEmpty();
    } else {
      var joined := Join(keys, ",");
      SplitJoin(keys, ',');
      assert Split(joined, ',') == keys;
      TrimAllTrimmed(keys);
      assert ParseKeys(joined) == NonEmpty(TrimAll(Split(joined, ',')));
    }
  }

  /** An empty or absent `keys` parameter names no key. */
  lemma ParseKeysEmpty()
    ensures ParseKeys("") == []
  {
    assert Split("", ',') == [""];
    assert TrimAll([""]) == [""];
  }

  lemma TrimAllTrimmed(keys: seq<string>)
    requires forall i :: 0 <= i < |keys| ==> Trimmed(keys[i])
    ensures TrimAll(keys) == keys
  {
    forall i | 0 <= i < |keys| ensures TrimAll(keys)[i] == keys[i] {
      TrimKeepsTrimmed(keys[i]);
    }
  }

  /** A parameter of blanks and commas only names no key. */
  lemma ParseKeysBlank()
    ensures ParseKeys(" , ,") == []
  {
    var s := " , ,";
    assert s == [' '] + [','] + ([' '] + [','] + "");
    SplitPrefix([' '], [' '] + [','] + "", ',');
    SplitPrefix([' '], "", ',');
    assert Split(s, ',') == [" ", " ", ""];
    assert Trim(" ") == "" && Trim("") == "";
    assert TrimAll([" ", " ", ""]) == ["", "", ""];
  }

  /** The entry `handleGet` reports under `k`: with requested keys, each of
      them, holding its stored value or `null`; without, every stored key. */
  function Expected(table: map<string, string>, keys: seq<string>, k: string): Option<Option<string>> {
    if k in table && (keys == [] || k in keys) then Some(Some(table[k]))
    else if k in keys then Some(None)
    else None
  }

  /** `data` is the object `handleGet` reports for the table and keys. */
  ghost predicate SnapshotOf(table: map<string, string>, keys: seq<string>, data: Entries<Option<string>>) {
    DistinctKeys(data) && forall k :: Get(data, k) == Expected(table, keys, k)
  }

  /** `resp` is what `handleGet` answers for this table and query. */
  ghost predicate GetResult(hasDb: bool, table: map<string, string>, query: Entries<string>, resp: Response) {
    if !hasDb then resp == Json(200, Snapshot(false, []))
    else if Truthy(Get(query, "status")) then resp == Json(200, Availability(true))
    else
      && resp.status == 200 && resp.headers == JsonHeaders
      && resp.body.Some? && resp.body.value.Snapshot? && resp.body.value.d1Available
      && SnapshotOf(table, ParseKeys(Get(query, "keys").GetOr("")), resp.body.value.data)
  }

  /** `keys.forEach((key) => { data[key] = null; })`. */
  method NullForEach(keys: seq<string>) returns (data: Entries<Option<string>>)
    ensures DistinctKeys(data)
    ensures forall k :: Get(data, k) == if k in keys then Some(None) else None
  {
    data := [];
    var i := 0;
    while i < |keys|
      invariant 0 <= i <= |keys|
      invariant DistinctKeys(data)
      invariant forall k :: Get(data, k) == if k in keys[..i] then Some(None) else None
    {
      assert keys[..i + 1] == keys[..i] + [keys[i]];
      data := Put(data, keys[i], None);
      i := i + 1;
    }
    assert keys[..|keys|] == keys;
  }

  /** `rows.forEach((row) => { data[row.key] = row.value; })`. */
  method OverwriteRows(data0: Entries<Option<string>>, rows: Entries<string>) returns (data: Entries<Option<string>>)
    requires DistinctKeys(data0) && DistinctKeys(rows)
    ensures DistinctKeys(data)
    ensures forall k :: Get(data, k) == if HasKey(rows, k) then Some(Get(rows, k)) else Get(data0, k)
  {
    data := data0;
    var j := 0;
    while j < |rows|
      invariant 0 <= j <= |rows|
      invariant DistinctKeys(data)
      invariant forall k :: Get(data, k) == if HasKey(rows[..j], k) then Some(Get(rows, k)) else Get(data0, k)
    {
      var (k, v) := rows[j];
      assert Get(rows, k) == Some(v);
      PrefixKeysStep(rows, j);
      data := Put(data, k, Some(v));
      j := j + 1;
    }
    assert rows[..|rows|] == rows;
  }

  /** One more row of the prefix adds exactly that row's key. */
  lemma PrefixKeysStep(rows: Entries<string>, j: nat)
    requires j < |rows|
    ensures forall k :: HasKey(rows[..j + 1], k) <==> HasKey(rows[..j], k) || k == rows[j].0
  {
    assert rows[..j + 1] == rows[..j] + [rows[j]];
    forall k ensures HasKey(rows[..j] + [rows[j]], k) <==> HasKey(rows[..j], k) || k == rows[j].0 {
      HasKeySnoc(rows[..j], rows[j], k);
    }
  }

  /** `handleGet`. The store is only read. */
  method HandleGet(db: Database?, query: Entries<string>) returns (resp: Response)
    ensures GetResult(db != null, if db != null then db.table else map[], query, resp)
  {
    if db == null {
      return Json(200, Snapshot(false, []));
    }
    if Truthy(Get(query, "status")) {
      return Json(200, Availability(true));
    }
    var keys := ParseKeys(Get(query, "keys").GetOr(""));
    var rows;
    var data: Entries<Option<string>>;
    if |keys| > 0 {
      rows := db.SelectIn(keys);
      data := NullForEach(keys);
    } else {
      rows := db.SelectAll();
      data := [];
    }
    data := OverwriteRows(data, rows);
    forall k ensures Get(data, k) == Expected(db.table, keys, k) {
      if HasKey(rows, k) {
        var i :| 0 <= i < |rows| && rows[i].0 == k;
      }
    }
    return Json(200, Snapshot(true, data));
  }

  /** A value of the POST payload: `null`/`undefined`, or anything else,
      represented by its `String(value)`. */
  datatype PayloadValue = Nullish | Value(text: string)

  /** The `data` field of a POST body: absent or not an object (including a
      body that is not JSON), an array, or an object with its entries. */
  datatype DataField = NotObject | ArrayData | ObjectData(entries: Entries<PayloadValue>)

  /** `value == null ? "" : String(value)`. */
  function StoredValue(v: PayloadValue): string {
    match v
    case Nullish => ""
    case Value(text) => text
  }

  /** `Object.entries(payload).filter(([key]) => Boolean(key))`. */
  function NonEmptyKeys(entries: Entries<PayloadValue>): (r: Entries<PayloadValue>)
    ensures forall i :: 0 <= i < |r| ==> r[i].0 != ""
    ensures forall k :: k != "" ==> LastValue(r, k) == LastValue(entries, k)
    ensures forall k :: HasKey(r, k) <==> HasKey(entries, k) && k != ""
    ensures |r| <= |entries|
  {
    if entries == [] then []
    else
      var init := NonEmptyKeys(entries[..|entries| - 1]);
      var last := entries[|entries| - 1];
      assert forall k :: HasKey(entries, k) <==> HasKey(entries[..|entries| - 1], k) || k == last.0 by {
        forall k ensures HasKey(entries, k) <==> HasKey(entries[..|entries| - 1], k) || k == last.0 {
          if HasKey(entries, k) {
            var i :| 0 <= i < |entries| && entries[i].0 == k;
            if i < |entries| - 1 {
              assert entries[..|entries| - 1][i] == entries[i];
            }
          }
          if HasKey(entries[..|entries| - 1], k) {
            var i :| 0 <= i < |entries| - 1 && entries[..|entries| - 1][i].0 == k;
            assert entries[i] == entries[..|entries| - 1][i];
          }
        }
      }
      if last.0 != "" then
        var r := init + [last];
        assert r[..|init|] == init;
        assert forall k :: HasKey(r, k) <==> HasKey(init, k) || k == last.0 by {
          forall k ensures HasKey(r, k) <==> HasKey(init, k) || k == last.0 {
            if HasKey(r, k) {
              var i :| 0 <= i < |r| && r[i].0 == k;
              if i < |init| {
                assert init[i] == r[i];
              }
            }
            if HasKey(init, k) {
              var i :| 0 <= i < |init| && init[i].0 == k;
              assert r[i] == init[i];
            }
            assert r[|init|] == last;
          }
        }
        r
      else init
  }

  /** One upsert per entry, in order. */
  function Upserts(entries: Entries<PayloadValue>): seq<Statement> {
    seq(|entries|, i requires 0 <= i < |entries| => Upsert(entries[i].0, StoredValue(entries[i].1)))
  }

  /** After the upserts, a key holds the stored form of the last value the
      entries give it; keys the entries do not name keep their value. */
  lemma {:induction false} UpsertsEffect(t: map<string, string>, entries: Entries<PayloadValue>, k: string)
    ensures var r := ApplyAll(t, Upserts(entries));
            && (k in r <==> k in t || HasKey(entries, k))
            && (HasKey(entries, k) ==> r[k] == StoredValue(LastValue(entries, k).value))
            && (!HasKey(entries, k) && k in t ==> r[k] == t[k])
  {
    if entries != [] {
      var init := entries[..|entries| - 1];
      var last := entries[|entries| - 1];
      assert Upserts(entries)[..|entries| - 1] == Upserts(init);
      UpsertsEffect(t, init, k);
      assert HasKey(entries, k) <==> HasKey(init, k) || k == last.0 by {
        if HasKey(entries, k) {
          var i :| 0 <= i < |entries| && entries[i].0 == k;
          if i < |entries| - 1 {
            assert init[i] == entries[i];
          }
        }
        if HasKey(init, k) {
          var i :| 0 <= i < |init| && init[i].0 == k;
          assert entries[i] == init[i];
        }
      }
    }
  }

  /** One delete per key, in order. */
  function Removes(keys: seq<string>): seq<Statement> {
    seq(|keys|, i requires 0 <= i < |keys| => Remove(keys[i]))
  }

  /** Deleting the keys removes exactly them; missing keys are no-ops. */
  lemma {:induction false} RemovesEffect(t: map<string, string>, keys: seq<string>)
    ensures ApplyAll(t, Removes(keys)) == t - set k | k in keys
  {
    if keys != [] {
      var init := keys[..|keys| - 1];
      assert Removes(keys)[..|keys| - 1] == Removes(init);
      RemovesEffect(t, init);
      assert (set k | k in keys) == (set k | k in init) + {keys[|keys| - 1]};
    }
  }

  /** The body of the answer to a POST. */
  function PostResponse(hasDb: bool, data: DataField): Response {
    if !hasDb then Json(200, Snapshot(false, []))
    else if !data.ObjectData? then Json(400, Failure("Invalid payload"))
    else Json(200, Updated(true, |NonEmptyKeys(data.entries)|))
  }

  /** The table after a POST. */
  function PostTable(t: map<string, string>, data: DataField): map<string, string> {
    if data.ObjectData? then ApplyAll(t, Upserts(NonEmptyKeys(data.entries))) else t
  }

  /** What a POST does to the table, key by key: every non-empty key of the
      payload holds the stored form of its value, nothing else changes, and
      a rejected payload changes nothing. */
  lemma PostTableEffect(t: map<string, string>, data: DataField, k: string)
    ensures var r := PostTable(t, data);
            && (data.ObjectData? && k != "" && HasKey(data.entries, k) ==>
                  k in r && r[k] == StoredValue(LastValue(data.entries, k).value))
            && (!(data.ObjectData? && k != "" && HasKey(data.entries, k)) ==>
                  (k in r <==> k in t) && (k in t ==> r[k] == t[k]))
  {
    if data.ObjectData? {
      UpsertsEffect(t, NonEmptyKeys(data.entries), k);
    }
  }

  /** `handlePost`. */
  method HandlePost(db: Database?, data: DataField) returns (resp: Response)
    modifies db
    ensures resp == PostResponse(db != null, data)
    ensures db != null ==> db.table == PostTable(old(db.table), data)
  {
    if db == null {
      return Json(200, Snapshot(false, []));
    }
    if !data.ObjectData? {
      return Json(400, Failure("Invalid payload"));
    }
    var entries := NonEmptyKeys(data.entries);
    if |entries| == 0 {
      return Json(200, Updated(true, 0));
    }
    var statements := Upserts(entries);
    db.Batch(statements);
    return Json(200, Updated(true, |entries|));
  }

  /** An item of the DELETE body's `keys` array. */
  datatype KeyItem = StringKey(s: string) | OtherItem

  /** The `keys` field of a DELETE body: an array, or anything else. */
  datatype KeysField = NotArray | KeyArray(items: seq<KeyItem>)

  /** `body.keys.filter((key) => typeof key === "string" && Boolean(key))`. */
  function ValidKeys(items: seq<KeyItem>): (r: seq<string>)
    ensures forall k :: k in r <==> k != "" && StringKey(k) in items
    ensures |r| <= |items|
  {
    if items == [] then []
    else
      var rest := ValidKeys(items[1..]);
      assert forall x :: x in items <==> x == items[0] || x in items[1..];
      if items[0].StringKey? && items[0].s != "" then [items[0].s] + rest else rest
  }

  /** The filter keeps each valid item where it stands: the keys of a
      concatenation are the keys of each part, in order and with their
      repetitions (which `deleted` counts). */
  lemma {:induction false} ValidKeysAppend(a: seq<KeyItem>, b: seq<KeyItem>)
    ensures ValidKeys(a + b) == ValidKeys(a) + ValidKeys(b)
  {
    if a == [] {
      assert a + b == b;
    } else {
      assert (a + b)[0] == a[0];
      assert (a + b)[1..] == a[1..] + b;
      ValidKeysAppend(a[1..], b);
      ValidKeysUnfold(a);
      ValidKeysUnfold(a + b);
      ConcatAssoc(ValidKeys([a[0]]), ValidKeys(a[1..]), ValidKeys(b));
    }
  }

  lemma ConcatAssoc<T>(x: seq<T>, y: seq<T>, z: seq<T>)
    ensures (x + y) + z == x + (y + z)
  {
  }

  /** The first item contributes its key, if any, in front. */
  lemma ValidKeysUnfold(items: seq<KeyItem>)
    requires items != []
    ensures ValidKeys(items) == ValidKeys([items[0]]) + ValidKeys(items[1..])
  {
    assert [items[0]][1..] == [];
  }

  /** A single item gives a key exactly when it is a non-empty string. */
  lemma ValidKeysSingle(x: KeyItem)
    ensures ValidKeys([x]) == if x.StringKey? && x.s != "" then [x.s] else []
  {
    assert [x][1..] == [];
  }


  function DeleteKeys(keys: KeysField): seq<string> {
    if keys.KeyArray? then ValidKeys(keys.items) else []
  }

  /** The body of the answer to a DELETE: `deleted` counts the valid keys
      supplied, repeated or absent ones included. */
  function DeleteResponse(hasDb: bool, keys: KeysField): Response {
    if !hasDb then Json(200, Availability(false))
    else Json(200, Deleted(true, |DeleteKeys(keys)|))
  }

  /** `handleDelete`: removes exactly the non-empty string keys supplied. */
  method HandleDelete(db: Database?, keys: KeysField) returns (resp: Response)
    modifies db
    ensures resp == DeleteResponse(db != null, keys)
    ensures db != null ==> db.table == old(db.table) - set k | k in DeleteKeys(keys)
  {
    if db == null {
      return Json(200, Availability(false));
    }
    var valid := DeleteKeys(keys);
    if |valid| == 0 {
      assert (set k | k in valid) == {};
      return Json(200, Deleted(true, 0));
    }
    RemovesEffect(db.table, valid);
    db.Batch(Removes(valid));
    return Json(200, Deleted(true, |valid|));
  }

  /** A GET after a POST reports, for a non-empty key the payload named,
      the stored form of its last value, whether the key was requested
      explicitly or every row was read. */
  lemma PostThenGet(t: map<string, string>, entries: Entries<PayloadValue>, keys: seq<string>, k: string)
    requires k != "" && HasKey(entries, k)
    requires keys == [] || k in keys
    ensures Expected(PostTable(t, ObjectData(entries)), keys, k) == Some(Some(StoredValue(LastValue(entries, k).value)))
  {
    PostTableEffect(t, ObjectData(entries), k);
  }

  /** A GET after a DELETE reports a deleted key as `null` when it is
      requested and leaves it out of a full read. */
  lemma DeleteThenGet(t: map<string, string>, deleteKeys: KeysField, keys: seq<string>, k: string)
    requires k in DeleteKeys(deleteKeys)
    ensures var after := t - set x | x in DeleteKeys(deleteKeys);
            && (k in keys ==> Expected(after, keys, k) == Some(None))
            && (keys == [] ==> Expected(after, keys, k) == None)
  {
  }

  /** An incoming request: method (possibly empty), query, and the two
      fields of the JSON body that the handlers read. */
  datatype StorageRequest = StorageRequest(verb: string, query: Entries<string>, data: DataField, keys: KeysField)

  /** `(request.method || "GET").toUpperCase()`. */
  function Verb(req: StorageRequest): (r: string)
    ensures req.verb == "" ==> r == "GET"
    ensures req.verb != "" ==> r == ToUpper(req.verb)
    ensures forall i :: 0 <= i < |r| ==> !('a' <= r[i] <= 'z')
  {
    ToUpper(if req.verb == "" then "GET" else req.verb)
  }

  const NotAllowed: Response := Json(405, Failure("Method not allowed"))

  /** `onRequest`: OPTIONS answers 204 with no body, GET/POST/DELETE (in any
      letter case) go to their handlers, every other method gets 405. Only
      POST and DELETE change the table. */
  method OnRequest(db: Database?, req: StorageRequest) returns (resp: Response)
    modifies db
    ensures Verb(req) == "OPTIONS" ==> resp == Response(204, JsonHeaders, None)
    ensures Verb(req) == "GET" ==> GetResult(db != null, if db != null then db.table else map[], req.query, resp)
    ensures Verb(req) == "POST" ==> resp == PostResponse(db != null, req.data)
    ensures Verb(req) == "DELETE" ==> resp == DeleteResponse(db != null, req.keys)
    ensures Verb(req) !in {"OPTIONS", "GET", "POST", "DELETE"} ==> resp == NotAllowed
    ensures db != null ==>
              db.table == if Verb(req) == "POST" then PostTable(old(db.table), req.data)
                          else if Verb(req) == "DELETE" then old(db.table) - set k | k in DeleteKeys(req.keys)
                          else old(db.table)
  {
    var verb := Verb(req);
    if verb == "OPTIONS" {
      return Response(204, JsonHeaders, None);
    }
    if verb == "GET" {
      resp := HandleGet(db, req.query);
      return;
    }
    if verb == "POST" {
      resp := HandlePost(db, req.data);
      return;
    }
    if verb == "DELETE" {
      resp := HandleDelete(db, req.keys);
      return;
    }
    return NotAllowed;
  }

  /** A request without a method is a GET, and `delete` is a DELETE. */
  lemma VerbDefaults(req: StorageRequest)
    ensures req.verb == "" ==> Verb(req) == "GET"
    ensures req.verb == "delete" ==> Verb(req) == "DELETE"
  {
    VerbMatches(req, "DELETE");
  }

  /** `v` is `m` with any of its letters written in lower case. */
  predicate SpellsUpper(v: string, m: string) {
    |v| == |m| && forall i :: 0 <= i < |m| ==> v[i] == m[i] || v[i] == LowerChar(m[i])
  }

  /** A method name made of upper-case letters, as the handler compares
      against: `GET`, `POST`, `DELETE`, `OPTIONS`. */
  predicate UpperName(m: string) {
    forall i :: 0 <= i < |m| ==> 'A' <= m[i] <= 'Z'
  }

  /** Methods match in any letter case: a request selects the upper-case
      name `m` exactly when its method spells `m` in some mix of cases, or
      it has no method and `m` is `GET`. */
  lemma VerbMatches(req: StorageRequest, m: string)
    requires UpperName(m)
    ensures Verb(req) == m <==>
              (req.verb == "" && m == "GET") || (req.verb != "" && SpellsUpper(req.verb, m))
  {
    if req.verb != "" {
      var v := req.verb;
      if |v| == |m| {
        forall i | 0 <= i < |m| ensures UpperChar(v[i]) == m[i] <==> v[i] == m[i] || v[i] == LowerChar(m[i]) {
          UpperCharMatches(v[i], m[i]);
        }
        if SpellsUpper(v, m) {
          assert ToUpper(v) == m;
        }
        if ToUpper(v) == m {
          assert forall i :: 0 <= i < |m| ==> UpperChar(v[i]) == m[i] by {
            forall i | 0 <= i < |m| ensures UpperChar(v[i]) == m[i] {
              assert ToUpper(v)[i] == UpperChar(v[i]);
            }
          }
        }
      } else {
        assert |ToUpper(v)| != |m|;
      }
    }
  }

  /** Upper-casing gives an upper-case letter from exactly its two spellings. */
  lemma UpperCharMatches(c: char, m: char)
    requires 'A' <= m <= 'Z'
    ensures UpperChar(c) == m <==> c == m || c == LowerChar(m)
  {
  }

  /** The four methods the handler knows, each in any letter case. */
  lemma KnownVerbs(req: StorageRequest)
    ensures Verb(req) == "GET" <==> req.verb == "" || SpellsUpper(req.verb, "GET")
    ensures Verb(req) == "POST" <==> SpellsUpper(req.verb, "POST")
    ensures Verb(req) == "DELETE" <==> SpellsUpper(req.verb, "DELETE")
    ensures Verb(req) == "OPTIONS" <==> SpellsUpper(req.verb, "OPTIONS")
  {
    VerbMatches(req, "GET");
    VerbMatches(req, "POST");
    VerbMatches(req, "DELETE");
    VerbMatches(req, "OPTIONS");
  }
}
