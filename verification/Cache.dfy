/** The local SQL cache of sessions and keys: key-agent/src/cache-init.cpp, cache-key.cpp and cache-session.cpp. */
module Cache {
  import opened Strings

  datatype KeyType = RsaKey | AesKey | InvalidKey

  /** A column that is UNIQUE ON CONFLICT REPLACE is the key of the map that models its table; `id` is the
      AUTOINCREMENT column (cache-init.cpp:77-83). */
  datatype SessionRow = SessionRow(id: int, swk: Bytes, sessionId: string, swkType: string)
  datatype KeyRow = KeyRow(id: int, sessionId: string, typ: KeyType)
  datatype AttrKey = AttrKey(keyId: int, name: string)

  datatype Db = Db(
    sessions: map<string, SessionRow>,  // by stm_label
    lastSession: int,
    keys: map<string, KeyRow>,          // by url
    lastKey: int,
    attributes: map<AttrKey, Bytes>,    // by (key_id, attr_name)
    policies: map<AttrKey, string>,     // by (key_id, attr_name)
    fakeIds: int
  )

  const KEYDATA := "KEYDATA"
  const NO_ID := -1

  /** Which statements of one caching call succeed. */
  datatype Luck = Luck(insert: bool, select: bool, attr: bool)

  const ALL_WELL := Luck(true, true, true)

  /** Ids never exceed the AUTOINCREMENT counters, and no two rows share one. */
  predicate Sound(db: Db) {
    && 0 <= db.lastKey && 0 <= db.lastSession
    && (forall u :: u in db.keys ==> 1 <= db.keys[u].id <= db.lastKey)
    && (forall u, v :: u in db.keys && v in db.keys && db.keys[u].id == db.keys[v].id ==> u == v)
    && (forall a :: a in db.attributes ==> a.keyId <= db.lastKey)
    && (forall s :: s in db.sessions ==> 1 <= db.sessions[s].id <= db.lastSession)
    && (forall s, t :: s in db.sessions && t in db.sessions && db.sessions[s].id == db.sessions[t].id ==> s == t)
  }

  // ----- Statements -----

  function InsertSession(db: Db, stm: string, swk: Bytes, sessionId: string, swkType: string): (r: Db) {
    db.(lastSession := db.lastSession + 1,
        sessions := db.sessions[stm := SessionRow(db.lastSession + 1, swk, sessionId, swkType)])
  }

  function InsertKey(db: Db, url: string, sessionId: string, typ: KeyType): (r: Db) {
    db.(lastKey := db.lastKey + 1, keys := db.keys[url := KeyRow(db.lastKey + 1, sessionId, typ)])
  }

  function InsertAttr(db: Db, id: int, name: string, value: Bytes): (r: Db) {
    db.(attributes := db.attributes[AttrKey(id, name) := value])
  }

  function WithoutAttrs<V>(m: map<AttrKey, V>, ids: set<int>): (r: map<AttrKey, V>) {
    map a | a in m && a.keyId !in ids :: m[a]
  }

  function WithoutKeys(m: map<string, KeyRow>, ids: set<int>): (r: map<string, KeyRow>) {
    map u | u in m && m[u].id !in ids :: m[u]
  }

  /** Deleting a set of ids from the three key tables. */
  function DeleteSet(db: Db, ids: set<int>): (r: Db) {
    db.(attributes := WithoutAttrs(db.attributes, ids), keys := WithoutKeys(db.keys, ids),
        policies := WithoutAttrs(db.policies, ids))
  }

  /** `__delete_key_and_attrs` */
  function Delete(db: Db, id: int): (r: Db) {
    DeleteSet(db, {id})
  }

  /** Deleting the ids of a list one after the other. */
  function DeleteAll(db: Db, ids: seq<int>): (r: Db)
    decreases |ids|
  {
    if ids == [] then db else DeleteAll(Delete(db, ids[0]), ids[1..])
  }

  /** `__keyagent_cache_loadkey_attr` */
  function ReadAttr(db: Db, id: int, name: string): (value: Option<Bytes>) {
    if AttrKey(id, name) in db.attributes then Some(db.attributes[AttrKey(id, name)]) else None
  }

  function NextFakeId(db: Db): (r: Db) {
    db.(fakeIds := db.fakeIds + 1)
  }

  // ----- Caching calls, with the cache id that the caller's object gets -----

  datatype Cached = Cached(db: Db, id: int, ok: bool)

  /** `__keyagent_cache_session` */
  function CacheSession(on: bool, db: Db, stm: string, swk: Bytes, sessionId: string, swkType: string, luck: Luck): (r: Cached) {
    if !on then Cached(NextFakeId(db), db.fakeIds + 1, true)
    else if !luck.insert then Cached(db, NO_ID, false)
    else
      var db1 := InsertSession(db, stm, swk, sessionId, swkType);
      if !luck.select then Cached(db1, NO_ID, false) else Cached(db1, db1.sessions[stm].id, true)
  }

  /** `__keyagent_cache_key` */
  function CacheKey(on: bool, db: Db, url: string, sessionId: string, typ: KeyType, keydata: Bytes, luck: Luck): (r: Cached) {
    if !on then Cached(NextFakeId(db), db.fakeIds + 1, true)
    else if !luck.insert then Cached(db, NO_ID, false)
    else
      var db1 := InsertKey(db, url, sessionId, typ);
      if !luck.select then Cached(db1, NO_ID, false)
      else
        var id := db1.keys[url].id;
        if typ != RsaKey then Cached(db1, id, true)
        else if luck.attr then Cached(InsertAttr(db1, id, KEYDATA, keydata), id, true)
        else Cached(Delete(db1, id), id, false)
  }

  // ----- What caching promises -----

  /** The row that a session in memory should have. */
  predicate SessionStored(db: Db, stm: string, swk: Bytes, sessionId: string, swkType: string, id: int) {
    stm in db.sessions && db.sessions[stm] == SessionRow(id, swk, sessionId, swkType)
  }

  /** The row that a key in memory should have, with its key data readable for an RSA key. */
  predicate KeyStored(db: Db, url: string, sessionId: string, typ: KeyType, keydata: Bytes, id: int) {
    && url in db.keys && db.keys[url] == KeyRow(id, sessionId, typ)
    && (typ == RsaKey ==> ReadAttr(db, id, KEYDATA) == Some(keydata))
  }

  /** A session is stored under its STM exactly when insert and select succeed; every other STM's row stays. */
  lemma CacheSessionStores(db: Db, stm: string, swk: Bytes, sessionId: string, swkType: string, luck: Luck)
    requires Sound(db)
    ensures var r := CacheSession(true, db, stm, swk, sessionId, swkType, luck);
            && Sound(r.db)
            && (r.ok <==> luck.insert && luck.select)
            && (r.ok ==> SessionStored(r.db, stm, swk, sessionId, swkType, r.id) && r.id == r.db.lastSession > db.lastSession)
            && (!r.ok ==> !SessionStored(r.db, stm, swk, sessionId, swkType, r.id))
            && (forall s :: s != stm ==> (s in r.db.sessions <==> s in db.sessions))
            && (forall s :: s != stm && s in db.sessions ==> r.db.sessions[s] == db.sessions[s])
            && r.db.keys == db.keys && r.db.attributes == db.attributes
            && (!luck.insert ==> r.db == db)
            && (!r.ok ==> r.id == -1)
            && (luck.insert ==> stm in r.db.sessions && r.db.sessions[stm] == SessionRow(db.lastSession + 1, swk, sessionId, swkType))
  {
  }

  /** With caching off a call takes the next number of the counter for an id, and no table changes. */
  lemma CachingOff(db: Db, stm: string, swk: Bytes, url: string, sessionId: string, swkType: string, typ: KeyType,
                   keydata: Bytes, luck: Luck)
    ensures CacheSession(false, db, stm, swk, sessionId, swkType, luck)
            == CacheKey(false, db, url, sessionId, typ, keydata, luck)
            == Cached(db.(fakeIds := db.fakeIds + 1), db.fakeIds + 1, true)
  {
  }

  /** Nothing is cached under an id that was handed out later, so a fresh id has no attribute rows yet. */
  lemma FreshIdIsBare(db: Db, id: int, name: string)
    requires Sound(db) && id > db.lastKey
    ensures ReadAttr(db, id, name).None?
    ensures forall u :: u in db.keys ==> db.keys[u].id != id
  {
  }

  /** No row of the three key tables carries this id. */
  predicate Unused(db: Db, id: int) {
    && (forall u :: u in db.keys ==> db.keys[u].id != id)
    && (forall a :: a in db.attributes ==> a.keyId != id)
    && (forall a :: a in db.policies ==> a.keyId != id)
  }

  ghost predicate OthersUntouched(db: Db, r: Db, url: string) {
    && (forall u :: u != url ==> (u in r.keys <==> u in db.keys))
    && (forall u :: u != url && u in db.keys ==> r.keys[u] == db.keys[u])
    && (forall id: int, name: string :: id <= db.lastKey ==> ReadAttr(r, id, name) == ReadAttr(db, id, name))
    && r.sessions == db.sessions && r.lastSession == db.lastSession
  }

  /** Deleting an id removes every row that carries it and nothing else. */
  lemma DeleteIsExact(db: Db, ids: set<int>)
    ensures var r := DeleteSet(db, ids);
            && (forall id :: id in ids ==> Unused(r, id))
            && (forall u :: u in r.keys <==> u in db.keys && db.keys[u].id !in ids)
            && (forall u :: u in r.keys ==> r.keys[u] == db.keys[u])
            && (forall id: int, name: string :: id !in ids ==> ReadAttr(r, id, name) == ReadAttr(db, id, name))
            && (forall a :: a in r.policies <==> a in db.policies && a.keyId !in ids)
            && (forall a :: a in r.policies ==> r.policies[a] == db.policies[a])
            && r.sessions == db.sessions && r.lastSession == db.lastSession && r.lastKey == db.lastKey
            && r.fakeIds == db.fakeIds
            && (Sound(db) ==> Sound(r))
  {
  }

  lemma InsertKeySound(db: Db, url: string, sessionId: string, typ: KeyType)
    requires Sound(db)
    ensures Sound(InsertKey(db, url, sessionId, typ))
  {
    var r := InsertKey(db, url, sessionId, typ);
    forall u, v | u in r.keys && v in r.keys && r.keys[u].id == r.keys[v].id
      ensures u == v
    {
      assert u != url ==> db.keys[u].id <= db.lastKey;
      assert v != url ==> db.keys[v].id <= db.lastKey;
    }
  }

  lemma InsertKeyFacts(db: Db, url: string, sessionId: string, typ: KeyType)
    requires Sound(db)
    ensures var r := InsertKey(db, url, sessionId, typ);
            && Sound(r) && OthersUntouched(db, r, url)
            && url in r.keys && r.keys[url] == KeyRow(db.lastKey + 1, sessionId, typ)
  {
    hide Sound;
    InsertKeySound(db, url, sessionId, typ);
  }

  lemma InsertAttrFacts(db: Db, name: string, value: Bytes)
    requires Sound(db)
    ensures var r := InsertAttr(db, db.lastKey, name, value);
            && Sound(r)
            && r.keys == db.keys && r.sessions == db.sessions && r.lastSession == db.lastSession && r.lastKey == db.lastKey
            && ReadAttr(r, db.lastKey, name) == Some(value)
            && forall id: int, n: string :: id != db.lastKey ==> ReadAttr(r, id, n) == ReadAttr(db, id, n)
  {
  }

  lemma FreshDeleted(db: Db, url: string, sessionId: string, typ: KeyType)
    requires Sound(db)
    ensures var r := Delete(InsertKey(db, url, sessionId, typ), db.lastKey + 1);
            Sound(r) && Unused(r, db.lastKey + 1) && url !in r.keys && OthersUntouched(db, r, url)
  {
    var db1 := InsertKey(db, url, sessionId, typ);
    InsertKeyFacts(db, url, sessionId, typ);
    DeleteIsExact(db1, {db.lastKey + 1});
    assert forall u :: u != url && u in db.keys ==> db1.keys[u].id !in {db.lastKey + 1};
  }

  /** A key is stored under its URL exactly when every statement it needs succeeds. Its id is new. A failed attribute
      insert leaves no row under that id. Other URLs' rows and other ids' attributes are untouched in every case. */
  lemma CacheKeyStores(db: Db, url: string, sessionId: string, typ: KeyType, keydata: Bytes, luck: Luck)
    requires Sound(db)
    ensures var r := CacheKey(true, db, url, sessionId, typ, keydata, luck);
            && Sound(r.db)
            && (r.ok <==> luck.insert && luck.select && (typ == RsaKey ==> luck.attr))
            && (r.ok ==> KeyStored(r.db, url, sessionId, typ, keydata, r.id) && r.id == r.db.lastKey > db.lastKey)
            && (!r.ok ==> !KeyStored(r.db, url, sessionId, typ, keydata, r.id))
            && (luck.insert && luck.select && !r.ok ==>
                  Unused(r.db, r.id) && url !in r.db.keys && r.id == db.lastKey + 1)
            && (!luck.insert ==> r.db == db)
            && (!(luck.insert && luck.select) ==> r.id == -1)
            && (luck.insert && !luck.select ==>
                  url in r.db.keys && r.db.keys[url] == KeyRow(db.lastKey + 1, sessionId, typ))
            && OthersUntouched(db, r.db, url)
  {
    if luck.insert {
      InsertKeyFacts(db, url, sessionId, typ);
      if luck.select && typ == RsaKey {
        if luck.attr {
          InsertAttrFacts(InsertKey(db, url, sessionId, typ), KEYDATA, keydata);
        } else {
          FreshDeleted(db, url, sessionId, typ);
        }
      }
    }
  }

  lemma DeleteUnused(db: Db, id: int)
    requires Unused(db, id)
    ensures Delete(db, id) == db
  {
    assert WithoutAttrs(db.attributes, {id}) == db.attributes;
    assert WithoutAttrs(db.policies, {id}) == db.policies;
    assert WithoutKeys(db.keys, {id}) == db.keys;
  }

  /** With key caching off a key gets the next number of a counter for its id, and uncaching deletes by that id all the
      same: the tables stay as they are exactly when no row, left by an agent that did cache keys, carries the number. */
  lemma UncacheWithCachingOff(db: Db, url: string, sessionId: string, typ: KeyType, keydata: Bytes, luck: Luck)
    ensures var c := CacheKey(false, db, url, sessionId, typ, keydata, luck);
            Delete(c.db, c.id) == c.db <==> Unused(db, db.fakeIds + 1)
  {
    var c := CacheKey(false, db, url, sessionId, typ, keydata, luck);
    DeleteIsExact(c.db, {c.id});
    if Unused(c.db, c.id) {
      DeleteUnused(c.db, c.id);
    }
  }

  /** Such a row: the first key cached by an agent that did cache keys, met by the first id of one that does not. */
  lemma UncacheHitsOldRow()
    ensures var db := CacheKey(true, EMPTY, "u", "s", AesKey, [7], ALL_WELL).db;
            var c := CacheKey(false, db, "v", "s", AesKey, [7], ALL_WELL);
            "u" in c.db.keys && "u" !in Delete(c.db, c.id).keys
  {
    var db := CacheKey(true, EMPTY, "u", "s", AesKey, [7], ALL_WELL).db;
    assert db.keys["u"].id == 1;
  }

  lemma DeleteSetTwice(db: Db, a: set<int>, b: set<int>)
    ensures DeleteSet(DeleteSet(db, a), b) == DeleteSet(db, a + b)
  {
    assert WithoutAttrs(WithoutAttrs(db.attributes, a), b) == WithoutAttrs(db.attributes, a + b);
    assert WithoutAttrs(WithoutAttrs(db.policies, a), b) == WithoutAttrs(db.policies, a + b);
    assert WithoutKeys(WithoutKeys(db.keys, a), b) == WithoutKeys(db.keys, a + b);
  }

  lemma DeleteNothing(db: Db)
    ensures DeleteSet(db, {}) == db
  {
    assert WithoutAttrs(db.attributes, {}) == db.attributes;
    assert WithoutAttrs(db.policies, {}) == db.policies;
    assert WithoutKeys(db.keys, {}) == db.keys;
  }

  function IdSet(ids: seq<int>): (r: set<int>) {
    set id | id in ids
  }

  lemma IdSetSplit(ids: seq<int>)
    requires ids != []
    ensures IdSet(ids) == {ids[0]} + IdSet(ids[1..])
  {
    assert forall id :: id in ids <==> id == ids[0] || id in ids[1..];
  }

  /** Deleting a list of ids, in any order and with repeats, deletes the set of them. */
  lemma {:induction false} DeleteAllIsSet(db: Db, ids: seq<int>)
    ensures DeleteAll(db, ids) == DeleteSet(db, IdSet(ids))
    decreases |ids|
  {
    if ids == [] {
      DeleteNothing(db);
      assert IdSet(ids) == {};
    } else {
      DeleteAllIsSet(Delete(db, ids[0]), ids[1..]);
      DeleteSetTwice(db, {ids[0]}, IdSet(ids[1..]));
      IdSetSplit(ids);
    }
  }

  lemma SameIds(a: seq<int>, b: seq<int>)
    requires forall id :: id in a <==> id in b
    ensures IdSet(a) == IdSet(b)
  {
    assert forall id :: id in IdSet(a) ==> id in a && id in IdSet(b);
    assert forall id :: id in IdSet(b) ==> id in b && id in IdSet(a);
  }

  lemma DeleteOrderIrrelevant(db: Db, a: seq<int>, b: seq<int>)
    requires forall id :: id in a <==> id in b
    ensures DeleteAll(db, a) == DeleteAll(db, b)
  {
    DeleteAllIsSet(db, a);
    DeleteAllIsSet(db, b);
    SameIds(a, b);
  }

  // ----- The startup sweep -----

  /** The rows of the key table as the result set lists them. */
  ghost predicate ListsKeys(db: Db, order: seq<string>) {
    && (forall u :: u in order <==> u in db.keys)
    && (forall i, j :: 0 <= i < j < |order| ==> db.keys[order[i]].id < db.keys[order[j]].id)
  }

  predicate Readable(db: Db, url: string)
    requires url in db.keys
  {
    ReadAttr(db, db.keys[url].id, KEYDATA).Some?
  }

  /** The variable `ret` of the sweep after its first n rows. It is set by RSA rows only and carried over by the rest. */
  function Carried(db: Db, order: seq<string>, n: nat): (ret: bool)
    requires n <= |order| && forall u :: u in order ==> u in db.keys
  {
    if n == 0 then false
    else if db.keys[order[n - 1]].typ == RsaKey then Readable(db, order[n - 1])
    else Carried(db, order, n - 1)
  }

  /** The ids that the sweep puts on the delete list. */
  function Doomed(db: Db, order: seq<string>, n: nat): (ids: seq<int>)
    requires n <= |order| && forall u :: u in order ==> u in db.keys
  {
    if n == 0 then []
    else Doomed(db, order, n - 1) + if Carried(db, order, n) then [] else [db.keys[order[n - 1]].id]
  }

  function Swept(db: Db, order: seq<string>): (r: Db)
    requires forall u :: u in order ==> u in db.keys
  {
    DeleteAll(db, Doomed(db, order, |order|))
  }

  lemma {:induction false} DoomedIds(db: Db, order: seq<string>, n: nat)
    requires Sound(db) && ListsKeys(db, order) && n <= |order|
    ensures forall i :: 0 <= i < |order| ==>
              (db.keys[order[i]].id in Doomed(db, order, n) <==> i < n && !Carried(db, order, i + 1))
  {
    if n > 0 {
      DoomedIds(db, order, n - 1);
    }
  }

  /** The sweep as written. The surviving RSA rows are exactly the readable ones. A row of another type survives exactly
      when `ret` was carried to it as true: when some RSA row comes before it and the last such row is readable.
      Deleted ids leave no row in any of the three tables, and what survives is unchanged. */
  lemma SweepIsExact(db: Db, order: seq<string>)
    requires Sound(db) && ListsKeys(db, order)
    ensures var r := Swept(db, order);
            && Sound(r)
            && (forall i :: 0 <= i < |order| ==> (order[i] in r.keys <==> Carried(db, order, i + 1)))
            && (forall u :: u in db.keys && db.keys[u].typ == RsaKey ==> (u in r.keys <==> Readable(db, u)))
            && (forall u :: u in db.keys && u !in r.keys ==> Unused(r, db.keys[u].id))
            && (forall u :: u in r.keys ==> u in db.keys && r.keys[u] == db.keys[u])
            && (forall u, name: string :: u in r.keys ==> ReadAttr(r, r.keys[u].id, name) == ReadAttr(db, r.keys[u].id, name))
  {
    var ids := Doomed(db, order, |order|);
    DoomedIds(db, order, |order|);
    DeleteAllIsSet(db, ids);
    DeleteIsExact(db, IdSet(ids));
    forall u | u in db.keys
      ensures u in Swept(db, order).keys <==> db.keys[u].id !in ids
    {
    }
    forall u | u in db.keys && db.keys[u].typ == RsaKey
      ensures u in Swept(db, order).keys <==> Readable(db, u)
    {
      var i :| 0 <= i < |order| && order[i] == u;
      assert Carried(db, order, i + 1) == Readable(db, u);
    }
  }

  /** The carried flag in words: the nearest RSA row at or before place n - 1 decides. */
  lemma {:induction false} CarriedIsNearest(db: Db, order: seq<string>, n: nat, at: nat)
    requires at < n <= |order| && forall u :: u in order ==> u in db.keys
    requires db.keys[order[at]].typ == RsaKey
    requires forall i :: at < i < n ==> db.keys[order[i]].typ != RsaKey
    ensures Carried(db, order, n) == Readable(db, order[at])
  {
    if n - 1 > at {
      CarriedIsNearest(db, order, n - 1, at);
    }
  }

  const EMPTY := Db(map[], 0, map[], 0, map[], map[], 0)

  /** The table after caching an AES key, and after caching an RSA key before it. */
  function AesAlone(): (db: Db) {
    CacheKey(true, EMPTY, "u", "s", AesKey, [7], ALL_WELL).db
  }

  function AesAfterRsa(): (db: Db) {
    CacheKey(true, CacheKey(true, EMPTY, "r", "s", RsaKey, [7], ALL_WELL).db, "u", "s", AesKey, [7], ALL_WELL).db
  }

  lemma SweptAlone(db: Db, u: string)
    requires Sound(db) && db.keys.Keys == {u} && db.keys[u].typ != RsaKey
    ensures ListsKeys(db, [u]) && u !in Swept(db, [u]).keys
  {
    assert [u][0] == u;
    assert !Carried(db, [u], 0);
    SweepIsExact(db, [u]);
  }

  lemma SweptBehind(db: Db, r: string, u: string)
    requires Sound(db) && r != u && db.keys.Keys == {r, u} && db.keys[r].id < db.keys[u].id
    requires db.keys[r].typ == RsaKey && Readable(db, r) && db.keys[u].typ != RsaKey
    ensures ListsKeys(db, [r, u]) && u in Swept(db, [r, u]).keys
  {
    var order := [r, u];
    assert order[0] == r && order[1] == u;
    assert Carried(db, order, 1);
    SweepIsExact(db, order);
  }

  lemma AloneTable()
    ensures Sound(AesAlone()) && AesAlone().keys == map["u" := KeyRow(1, "s", AesKey)]
  {
  }

  lemma AfterRsaTable()
    ensures Sound(AesAfterRsa())
    ensures AesAfterRsa().keys == map["r" := KeyRow(1, "s", RsaKey), "u" := KeyRow(2, "s", AesKey)]
    ensures ReadAttr(AesAfterRsa(), 1, KEYDATA) == Some([7])
  {
    hide Sound;
    var first := CacheKey(true, EMPTY, "r", "s", RsaKey, [7], ALL_WELL).db;
    EmptySound();
    CacheKeyStores(EMPTY, "r", "s", RsaKey, [7], ALL_WELL);
    CacheKeyStores(first, "u", "s", AesKey, [7], ALL_WELL);
  }

  lemma EmptySound()
    ensures Sound(EMPTY)
  {
  }

  /** The agent caches an AES key without any attribute. The sweep deletes its row if it stands alone, and keeps it behind a
      readable RSA row. */
  lemma SweepLosesAesRow()
    ensures ListsKeys(AesAlone(), ["u"]) && "u" !in Swept(AesAlone(), ["u"]).keys
    ensures ListsKeys(AesAfterRsa(), ["r", "u"]) && "u" in Swept(AesAfterRsa(), ["r", "u"]).keys
  {
    hide AesAlone, AesAfterRsa, Swept, ListsKeys, Sound, ReadAttr;
    AloneTable();
    AfterRsaTable();
    SweptAlone(AesAlone(), "u");
    SweptBehind(AesAfterRsa(), "r", "u");
  }

  // ----- The cache in place -----

  class LocalCache {
    var db: Db
    const cacheSessions: bool
    const cacheKeys: bool
    var modelOpen: bool          // global_model != NULL
    var deleteList: seq<int>     // global_delete_list

    constructor (db: Db, cacheSessions: bool, cacheKeys: bool)
      ensures this.db == db && this.cacheSessions == cacheSessions && this.cacheKeys == cacheKeys
      ensures !modelOpen && deleteList == []
    {
      this.db, this.cacheSessions, this.cacheKeys := db, cacheSessions, cacheKeys;
      modelOpen, deleteList := false, [];
    }

    method StoreSession(stm: string, swk: Bytes, sessionId: string, swkType: string, luck: Luck) returns (id: int, ok: bool)
      modifies `db
      ensures Cached(db, id, ok) == CacheSession(cacheSessions, old(db), stm, swk, sessionId, swkType, luck)
    {
      id, ok := NO_ID, true;
      if !cacheSessions {
        db := db.(fakeIds := db.fakeIds + 1);
        id := db.fakeIds;
        return;
      }
      if !luck.insert {
        ok := false;
        return;
      }
      db := InsertSession(db, stm, swk, sessionId, swkType);
      if !luck.select {
        ok := false;
        return;
      }
      id := db.sessions[stm].id;
    }

    method StoreKey(url: string, sessionId: string, typ: KeyType, keydata: Bytes, luck: Luck) returns (id: int, ok: bool)
      modifies `db
      ensures Cached(db, id, ok) == CacheKey(cacheKeys, old(db), url, sessionId, typ, keydata, luck)
    {
      id, ok := NO_ID, true;
      if !cacheKeys {
        db := db.(fakeIds := db.fakeIds + 1);
        id := db.fakeIds;
        return;
      }
      if !luck.insert {
        ok := false;
        return;
      }
      db := InsertKey(db, url, sessionId, typ);
      if luck.select {
        id := db.keys[url].id;
        if typ == RsaKey {
          if luck.attr {
            db := InsertAttr(db, id, KEYDATA, keydata);
          } else {
            ok := false;
          }
        }
        if !ok {
          DeleteKeyAndAttrs(id);
        }
      } else {
        ok := false;
      }
    }

    /** Three DELETE statements. */
    method DeleteKeyAndAttrs(id: int)
      modifies `db
      ensures db == Delete(old(db), id)
    {
      db := db.(attributes := WithoutAttrs(db.attributes, {id}));
      db := db.(keys := WithoutKeys(db.keys, {id}));
      db := db.(policies := WithoutAttrs(db.policies, {id}));
    }

    /** `__keyagent_uncache_key`: deferred while a result set is open, whether key caching is on or not. */
    method Uncache(id: int)
      modifies `db, `deleteList
      ensures modelOpen ==> deleteList == old(deleteList) + [id] && db == old(db)
      ensures !modelOpen ==> deleteList == old(deleteList) && db == Delete(old(db), id)
    {
      if modelOpen {
        deleteList := deleteList + [id];
        return;
      }
      DeleteKeyAndAttrs(id);
    }

    /** The tail of the sweep: close the result set, then work through the delete list. */
    method Flush()
      modifies this
      ensures !modelOpen && deleteList == []
      ensures db == DeleteAll(old(db), old(deleteList))
    {
      modelOpen := false;
      ghost var start, list := db, deleteList;
      for i := 0 to |deleteList|
        invariant deleteList == list && !modelOpen
        invariant DeleteAll(db, list[i..]) == DeleteAll(start, list)
      {
        assert list[i..][1..] == list[i + 1..];
        DeleteKeyAndAttrs(deleteList[i]);
      }
      deleteList := [];
    }

    /** Uncaching these ids while a result set is open and then closing it gives the tables that uncaching the same set of
        ids at once would have given, whatever the order and the repeats. */
    method UncacheDeferred(ids: seq<int>, ghost others: seq<int>)
      requires !modelOpen && deleteList == []
      requires forall id :: id in ids <==> id in others
      modifies this
      ensures db == DeleteAll(old(db), others)
      ensures !modelOpen && deleteList == []
    {
      ghost var start := db;
      modelOpen := true;
      for i := 0 to |ids|
        invariant modelOpen && db == start && deleteList == ids[..i]
      {
        Uncache(ids[i]);
      }
      assert ids[..|ids|] == ids;
      Flush();
      DeleteOrderIrrelevant(start, ids, others);
    }

    /** `__keyagent_cache_loadkeys` over the rows that the SELECT lists. */
    method LoadKeys(order: seq<string>)
      requires !modelOpen && deleteList == []
      requires forall u :: u in order ==> u in db.keys
      modifies this
      ensures db == Swept(old(db), order)
      ensures !modelOpen && deleteList == []
    {
      var ret := false;
      modelOpen := true;
      for i := 0 to |order|
        invariant modelOpen && db == old(db)
        invariant ret == Carried(db, order, i)
        invariant deleteList == Doomed(db, order, i)
      {
        var row := db.keys[order[i]];
        if row.typ == RsaKey {
          ret := ReadAttr(db, row.id, KEYDATA).Some?;
        }
        if !ret {
          deleteList := deleteList + [row.id];
        }
      }
      Flush();
    }
  }
}
