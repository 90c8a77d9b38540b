/** The cache tables agree with the tables in memory: cache-session.cpp:140-180 and cache-key.cpp:310-370, driven by
    session.cpp:82-108 and key.cpp:42-83. */
module AgentCache {
  import opened Strings
  import opened Cache
  import opened AgentModel
  import opened AgentLaws

  /** Every session of the table has the row of its STM, with equal fields and with its own cache id. */
  predicate SessionsCached(st: State) {
    forall id :: id in st.sessions ==>
      var s := Deref(st, st.sessions[id]);
      SessionStored(st.db, s.name, s.swk, s.id, s.swkType, s.cacheId)
  }

  predicate KeyCached(st: State, k: Key) {
    KeyStored(st.db, k.url, Deref(st, k.session).id, k.typ, KeyData(k), k.cacheId)
  }

  /** Every key of the table has the row of its URL, under its own cache id, and an RSA key can be read back by that id. */
  predicate KeysCached(st: State) {
    forall t :: t in st.keys ==> KeyCached(st, st.keys[t])
  }

  /** Since the url and stm_label columns are unique and ids are too, a row is the only one with its id. */
  lemma OneRowPerKey(st: State, t: TableKey, u: string)
    requires Sound(st.db) && KeysCached(st) && t in st.keys
    requires u in st.db.keys && st.db.keys[u].id == st.keys[t].cacheId
    ensures u == st.keys[t].url
  {
    assert KeyCached(st, st.keys[t]);
  }

  // ----- Sessions -----

  /** No other session of the table is left that names the same STM. */
  lemma OtherSessions(st: State, n: NewSession, gone: set<TableKey>, r: State, id: string)
    requires Wired(st) && Current(st) && n.stm in st.stms && TableEffect(st, n, gone, r)
    requires id in r.sessions && id != n.id
    ensures id in st.sessions && r.sessions[id] == st.sessions[id] && st.sessions[id] != Target(st, n)
    ensures Deref(st, st.sessions[id]).name != Renewed(st, n).name
    ensures Deref(r, r.sessions[id]) == Deref(st, st.sessions[id])
  {
    var q := st.sessions[id];
    assert st.stms[st.heap[q].name] == Some(q);
    assert n.id !in st.sessions && st.heap[q].name == n.stm ==> GivesWay(st, n) == {id};
  }

  lemma StoredStays(db: Db, db': Db, s: Session)
    requires SessionStored(db, s.name, s.swk, s.id, s.swkType, s.cacheId)
    requires s.name in db'.sessions && db'.sessions[s.name] == db.sessions[s.name]
    ensures SessionStored(db', s.name, s.swk, s.id, s.swkType, s.cacheId)
  {
  }

  lemma CreatedStored(cfg: Config, st: State, n: NewSession)
    requires cfg.cacheSessions && Sound(st.db)
    ensures var c := CachedAs(cfg, st, n); var s := Renewed(st, n);
            && Sound(c.db)
            && (n.luck.insert && n.luck.select ==> SessionStored(c.db, s.name, s.swk, s.id, s.swkType, c.id))
            && (!(n.luck.insert && n.luck.select) ==> !SessionStored(c.db, s.name, s.swk, s.id, s.swkType, c.id))
            && (forall m :: m != s.name && m in st.db.sessions ==> m in c.db.sessions && c.db.sessions[m] == st.db.sessions[m])
  {
    var s := Renewed(st, n);
    var ids := CacheIds(st.keys, GoingKeys(cfg, st, n));
    DeleteIsExact(st.db, ids);
    CacheSessionStores(DeleteSet(st.db, ids), s.name, s.swk, s.id, s.swkType, n.luck);
  }

  /** With session caching on, the agreement survives a creation, an swk update or a replacement when the row can be
      inserted and read back. */
  lemma CreatedSessionsCached(cfg: Config, st: State, n: NewSession)
    requires cfg.cacheSessions && Sound(st.db)
    requires Wired(st) && Current(st) && n.stm in st.stms && SessionsCached(st)
    requires n.luck.insert && n.luck.select
    ensures SessionsCached(Created(cfg, st, n))
  {
    var r := Created(cfg, st, n);
    CreatedTables(cfg, st, n);
    CreatedStored(cfg, st, n);
    forall id | id in r.sessions
      ensures var s := Deref(r, r.sessions[id]); SessionStored(r.db, s.name, s.swk, s.id, s.swkType, s.cacheId)
    {
      if id != n.id {
        OtherSessions(st, n, GoingKeys(cfg, st, n), r, id);
        StoredStays(st.db, r.db, Deref(st, st.sessions[id]));
      }
    }
  }

  /** And it does not survive a failed statement. */
  lemma CreatedSessionNotCached(cfg: Config, st: State, n: NewSession)
    requires cfg.cacheSessions && Sound(st.db)
    requires Wired(st) && n.stm in st.stms
    requires !(n.luck.insert && n.luck.select)
    ensures !SessionsCached(Created(cfg, st, n))
  {
    var r := Created(cfg, st, n);
    CreatedTables(cfg, st, n);
    CreatedStored(cfg, st, n);
    assert n.id in r.sessions && Deref(r, r.sessions[n.id]) == Renewed(st, n).(cacheId := CachedAs(cfg, st, n).id);
  }

  /** The agreement of one call, exactly. */
  lemma SessionCacheExact(cfg: Config, st: State, n: NewSession)
    requires cfg.cacheSessions && Sound(st.db)
    requires Wired(st) && Current(st) && SessionsCached(st)
    ensures SessionsCached(CreateSession(cfg, st, n).st) <==> !Admitted(st, n) || (n.luck.insert && n.luck.select)
  {
    CreateSessionEffect(cfg, st, n);
    if Admitted(st, n) {
      if n.luck.insert && n.luck.select {
        CreatedSessionsCached(cfg, st, n);
      } else {
        CreatedSessionNotCached(cfg, st, n);
      }
    }
  }

  // ----- Keys under session changes -----

  lemma CreatedRows(cfg: Config, st: State, n: NewSession, t: TableKey)
    requires Sound(st.db) && TablesKeyed(st) && KeysCached(st)
    requires t in st.keys && t !in GoingKeys(cfg, st, n)
    ensures var db := DeleteSet(st.db, CacheIds(st.keys, GoingKeys(cfg, st, n)));
            KeyStored(db, st.keys[t].url, Deref(st, st.keys[t].session).id, st.keys[t].typ, KeyData(st.keys[t]), st.keys[t].cacheId)
  {
    var gone := GoingKeys(cfg, st, n);
    var ids := CacheIds(st.keys, gone);
    assert KeyCached(st, st.keys[t]);
    forall other | other in st.keys && other != t
      ensures st.keys[other].cacheId != st.keys[t].cacheId
    {
      assert KeyCached(st, st.keys[other]);
    }
    DeleteIsExact(st.db, ids);
  }

  lemma SessionCachingSparesKeys(on: bool, db: Db, s: Session, luck: Luck)
    ensures var c := CacheSession(on, db, s.name, s.swk, s.id, s.swkType, luck);
            c.db.keys == db.keys && c.db.attributes == db.attributes && c.db.lastKey == db.lastKey
  {
  }

  /** Keys that stay keep their rows, whatever becomes of the session rows; the rows of keys that go are deleted with
      everything under their ids, and no other rows are. */
  lemma CreatedKeysCached(cfg: Config, st: State, n: NewSession)
    requires Sound(st.db) && Wired(st) && n.stm in st.stms && KeysCached(st)
    ensures KeysCached(Created(cfg, st, n))
  {
    var r := Created(cfg, st, n);
    CreatedTables(cfg, st, n);
    EffectKeyed(st, n, GoingKeys(cfg, st, n), r);
    SessionCachingSparesKeys(cfg.cacheSessions, DeleteSet(st.db, CacheIds(st.keys, GoingKeys(cfg, st, n))), Renewed(st, n), n.luck);
    forall t | t in r.keys
      ensures KeyCached(r, r.keys[t])
    {
      CreatedRows(cfg, st, n, t);
      SameKeyStored(DeleteSet(st.db, CacheIds(st.keys, GoingKeys(cfg, st, n))), r.db, st, r, st.keys[t]);
    }
  }

  lemma SameKeyStored(db: Db, db': Db, st: State, r: State, k: Key)
    requires KeyStored(db, k.url, Deref(st, k.session).id, k.typ, KeyData(k), k.cacheId)
    requires db'.keys == db.keys && db'.attributes == db.attributes
    requires Deref(r, k.session).id == Deref(st, k.session).id
    ensures KeyStored(db', k.url, Deref(r, k.session).id, k.typ, KeyData(k), k.cacheId)
  {
  }

  lemma CreatedSound(cfg: Config, st: State, n: NewSession)
    requires Sound(st.db)
    ensures Sound(Created(cfg, st, n).db)
  {
    var s := Renewed(st, n);
    var ids := CacheIds(st.keys, GoingKeys(cfg, st, n));
    DeleteIsExact(st.db, ids);
    if cfg.cacheSessions {
      CacheSessionStores(DeleteSet(st.db, ids), s.name, s.swk, s.id, s.swkType, n.luck);
    }
  }

  // ----- Keys -----

  /** The table entry that the call leaves behind, but for its cache id. */
  predicate Accepted(st: State, n: NewKey) {
    QuarkOf(n.url) in st.keys || KeyAdmitted(st, n)
  }

  function KeyAfter(st: State, n: NewKey): (k: Key)
    requires Accepted(st, n)
  {
    if QuarkOf(n.url) in st.keys then st.keys[QuarkOf(n.url)]
    else Key(n.url, n.typ, st.sessions[n.sessionId.value], n.attrs.value, NO_ID)
  }

  function KeyCachedAs(cfg: Config, st: State, n: NewKey): (c: Cached)
    requires Accepted(st, n)
  {
    var k := KeyAfter(st, n);
    CacheKey(cfg.cacheKeys, st.db, k.url, Deref(st, k.session).id, k.typ, KeyData(k), n.luck)
  }

  /** `__keyagent_key_create` succeeds exactly on accepted arguments; a refused call changes nothing, an accepted one sets
      one table entry and caches it. */
  lemma CreateKeyEffect(cfg: Config, st: State, n: NewKey)
    ensures var o := CreateKey(cfg, st, n);
            && (o.ok <==> Accepted(st, n))
            && (!o.ok ==> o.st == st)
            && (o.ok ==>
                  var c := KeyCachedAs(cfg, st, n);
                  o.st == st.(db := c.db, keys := st.keys[QuarkOf(n.url) := KeyAfter(st, n).(cacheId := c.id)]))
  {
    if QuarkOf(n.url) !in st.keys && KeyAdmitted(st, n) {
      var k := KeyAfter(st, n);
      KeyTwice(st.keys, QuarkOf(n.url), k, k.(cacheId := KeyCachedAs(cfg, st, n).id));
    }
  }

  lemma KeyTwice(m: map<TableKey, Key>, t: TableKey, a: Key, b: Key)
    ensures m[t := a][t := b] == m[t := b]
  {
  }

  lemma OtherKeyStored(db: Db, db': Db, url: string, st: State, k: Key)
    requires Sound(db) && OthersUntouched(db, db', url) && k.url != url
    requires KeyStored(db, k.url, Deref(st, k.session).id, k.typ, KeyData(k), k.cacheId)
    ensures KeyStored(db', k.url, Deref(st, k.session).id, k.typ, KeyData(k), k.cacheId)
  {
  }

  lemma KeyCachingStores(cfg: Config, st: State, n: NewKey)
    requires cfg.cacheKeys && Sound(st.db) && Accepted(st, n)
    ensures var c := KeyCachedAs(cfg, st, n); var k := KeyAfter(st, n);
            && Sound(c.db) && OthersUntouched(st.db, c.db, k.url)
            && (c.ok ==> KeyStored(c.db, k.url, Deref(st, k.session).id, k.typ, KeyData(k), c.id))
            && (!c.ok ==> !KeyStored(c.db, k.url, Deref(st, k.session).id, k.typ, KeyData(k), c.id))
            && (c.ok <==> n.luck.insert && n.luck.select && (k.typ == RsaKey ==> n.luck.attr))
  {
    var k := KeyAfter(st, n);
    CacheKeyStores(st.db, k.url, Deref(st, k.session).id, k.typ, KeyData(k), n.luck);
  }

  /** With key caching on, an accepted key keeps the agreement when its statements succeed. */
  lemma CreateKeyCached(cfg: Config, st: State, n: NewKey)
    requires cfg.cacheKeys && Sound(st.db) && TablesKeyed(st) && KeysCached(st)
    requires Accepted(st, n) && KeyCachedAs(cfg, st, n).ok
    ensures KeysCached(CreateKey(cfg, st, n).st)
  {
    CreateKeyEffect(cfg, st, n);
    KeyCachingStores(cfg, st, n);
    var r := CreateKey(cfg, st, n).st;
    forall t | t in r.keys
      ensures KeyCached(r, r.keys[t])
    {
      if t != QuarkOf(n.url) {
        assert KeyCached(st, st.keys[t]);
        OtherKeyStored(st.db, r.db, KeyAfter(st, n).url, st, st.keys[t]);
      }
    }
  }

  lemma CreateKeyNotCached(cfg: Config, st: State, n: NewKey)
    requires cfg.cacheKeys && Sound(st.db) && Accepted(st, n) && !KeyCachedAs(cfg, st, n).ok
    ensures !KeysCached(CreateKey(cfg, st, n).st)
  {
    CreateKeyEffect(cfg, st, n);
    KeyCachingStores(cfg, st, n);
    var r := CreateKey(cfg, st, n).st;
    assert !KeyCached(r, r.keys[QuarkOf(n.url)]);
  }

  /** The agreement of one call, exactly. Only an RSA key needs the attribute insert. */
  lemma KeyCacheExact(cfg: Config, st: State, n: NewKey)
    requires cfg.cacheKeys && Sound(st.db) && TablesKeyed(st) && KeysCached(st)
    ensures KeysCached(CreateKey(cfg, st, n).st) <==>
              !Accepted(st, n)
              || (n.luck.insert && n.luck.select && (KeyAfter(st, n).typ == RsaKey ==> n.luck.attr))
  {
    CreateKeyEffect(cfg, st, n);
    if Accepted(st, n) {
      KeyCachingStores(cfg, st, n);
      if KeyCachedAs(cfg, st, n).ok {
        CreateKeyCached(cfg, st, n);
      } else {
        CreateKeyNotCached(cfg, st, n);
      }
    }
  }

  lemma CreateKeySound(cfg: Config, st: State, n: NewKey)
    requires Sound(st.db)
    ensures Sound(CreateKey(cfg, st, n).st.db)
    ensures CreateKey(cfg, st, n).st.db.sessions == st.db.sessions
  {
    CreateKeyEffect(cfg, st, n);
    if Accepted(st, n) && cfg.cacheKeys {
      KeyCachingStores(cfg, st, n);
    }
  }
}
