/** The key agent in place: the structures and hash tables of the source, with every operation proved to do to them exactly
    what its specification in AgentModel does to the state they stand for. */
module KeyAgent {
  import opened Strings
  import opened Cache
  import opened Token
  import opened AgentModel
  import SwkTypes
  import KeyTransfer

  /** `keyagent_session_real`, with its address. */
  class SessionObject {
    const ptr: Ptr
    const name: string
    const id: string
    const swkType: string
    var swk: Bytes
    var cacheId: int

    constructor (ptr: Ptr, name: string, id: string, swkType: string, swk: Bytes)
      ensures this.ptr == ptr && Abs() == Session(name, id, swkType, swk, NO_ID)
    {
      this.ptr, this.name, this.id, this.swkType, this.swk, cacheId := ptr, name, id, swkType, swk, NO_ID;
    }

    function Abs(): (s: Session)
      reads this
    {
      Session(name, id, swkType, swk, cacheId)
    }
  }

  /** `keyagent_stm_real` */
  class StmObject {
    const name: string
    var session: SessionObject?

    constructor (name: string)
      ensures this.name == name && session == null
    {
      this.name, session := name, null;
    }

    function Abs(): (p: Option<Ptr>)
      reads this
    {
      if session == null then None else Some(session.ptr)
    }
  }

  /** `keyagent_key_real` */
  class KeyObject {
    const url: string
    const typ: KeyType
    const session: SessionObject
    const attrs: map<string, Bytes>
    var cacheId: int

    constructor (url: string, typ: KeyType, session: SessionObject, attrs: map<string, Bytes>)
      ensures this.session == session && Abs() == Key(url, typ, session.ptr, attrs, NO_ID)
    {
      this.url, this.typ, this.session, this.attrs, cacheId := url, typ, session, attrs, NO_ID;
    }

    function Abs(): (k: Key)
      reads this
    {
      Key(url, typ, session.ptr, attrs, cacheId)
    }
  }

  class Agent {
    const cfg: Config
    const cache: LocalCache
    const device: TokenLibrary
    var heap: map<Ptr, SessionObject>   // every session structure that was ever allocated
    var next: Ptr
    var stms: map<string, StmObject>
    var sessions: map<string, SessionObject>
    var keys: map<TableKey, KeyObject>
    var requests: map<string, Option<UriData>>
    var locked: bool
    ghost var repr: set<object>         // the structures that the agent may change

    ghost predicate ReprValid()
      reads `repr, `heap, `stms, `keys, device`token
    {
      && this in repr && cache in repr && device in repr && (device.token != null ==> device.token in repr)
      && (forall p :: p in heap ==> heap[p] in repr)
      && (forall s :: s in stms ==> stms[s] in repr)
      && (forall t :: t in keys ==> keys[t] in repr)
    }

    predicate Allocated(s: SessionObject)
      reads `heap
    {
      s.ptr in heap && heap[s.ptr] == s
    }

    ghost predicate HeapValid()
      reads `heap, `next
    {
      forall p :: p in heap ==> heap[p].ptr == p && p < next
    }

    ghost predicate SessionsValid()
      reads `sessions, `heap
    {
      forall i :: i in sessions ==> Allocated(sessions[i])
    }

    ghost predicate StmsValid()
      reads `stms, `heap, set s | s in stms :: stms[s]
    {
      forall s :: s in stms ==> stms[s].name == s && (stms[s].session != null ==> Allocated(stms[s].session))
    }

    ghost predicate KeysValid()
      reads `keys, `heap
    {
      forall t :: t in keys ==> t == QuarkOf(keys[t].url) && Allocated(keys[t].session) && KEYDATA in keys[t].attrs
    }

    /** Every session pointer leads to an allocated session, and since the structures carry their own table key, no two
        table entries share one. */
    ghost predicate Valid()
      reads this, cache, device`token, set s | s in stms :: stms[s]
    {
      && HeapValid() && SessionsValid() && StmsValid() && KeysValid() && ReprValid()
      && cache.cacheSessions == cfg.cacheSessions && cache.cacheKeys == cfg.cacheKeys && !cache.modelOpen
    }

    ghost function HeapAbs(): (m: map<Ptr, Session>)
      reads `heap, set p | p in heap :: heap[p]
    {
      map p | p in heap :: heap[p].Abs()
    }

    ghost function StmsAbs(): (m: map<string, Option<Ptr>>)
      reads `stms, set s | s in stms :: stms[s]
    {
      map s | s in stms :: stms[s].Abs()
    }

    ghost function SessionsAbs(): (m: map<string, Ptr>)
      reads `sessions
    {
      map i | i in sessions :: sessions[i].ptr
    }

    ghost function KeysAbs(): (m: map<TableKey, Key>)
      reads `keys, set t | t in keys :: keys[t]
    {
      map t | t in keys :: keys[t].Abs()
    }

    /** The state that the structures stand for. */
    ghost function Abs(): (st: State)
      reads this, cache, device, device.token
      reads set p | p in heap :: heap[p], set s | s in stms :: stms[s], set t | t in keys :: keys[t]
    {
      State(HeapAbs(), next, StmsAbs(), SessionsAbs(), KeysAbs(), requests, cache.db, device.Abs(), locked)
    }

    constructor (cfg: Config, cache: LocalCache, device: TokenLibrary)
      requires cache.cacheSessions == cfg.cacheSessions && cache.cacheKeys == cfg.cacheKeys && !cache.modelOpen
      ensures Valid() && this.cfg == cfg && this.cache == cache && this.device == device
      ensures forall o :: o in repr ==> o == this || o == cache || o == device || o == device.token
      ensures Abs() == State(map[], 0, map[], map[], map[], map[], cache.db, device.Abs(), false)
    {
      this.cfg, this.cache, this.device := cfg, cache, device;
      heap, next, stms, sessions, keys, requests, locked := map[], 0, map[], map[], map[], map[], false;
      new;
      repr := {this, cache, device};
      if device.token != null {
        repr := repr + {device.token};
      }
    }

    lemma InRepr()
      requires Valid()
      ensures this in repr && cache in repr && device in repr && (device.token != null ==> device.token in repr)
      ensures forall p :: p in heap ==> heap[p] in repr
      ensures forall s :: s in stms ==> stms[s] in repr
      ensures forall t :: t in keys ==> keys[t] in repr
    {
    }

    twostate lemma StmAdded(name: string, new stm: StmObject)
      requires stm.session == null && stm.name == name && stms == old(stms)[name := stm]
      requires forall s :: s in old(stms) ==> unchanged(old(stms)[s])
      ensures StmsAbs() == old(StmsAbs())[name := None]
      ensures old(StmsValid()) && old(heap) == heap ==> StmsValid()
      ensures (old(ReprValid()) && heap == old(heap) && keys == old(keys) && device.token == old(device.token)
               && repr == old(repr) + {stm}) ==> ReprValid()
    {
    }

    /** `__initialize_stm` for a module that loaded. */
    method AddStm(name: string)
      requires Valid()
      modifies `stms, `repr
      ensures Valid() && fresh(repr - old(repr))
      ensures Abs() == old(Abs()).(stms := old(Abs()).stms[name := None])
    {
      hide HeapValid, StmsValid, SessionsValid, KeysValid, ReprValid, HeapAbs, StmsAbs, SessionsAbs, KeysAbs;
      var stm := new StmObject(name);
      stms := stms[name := stm];
      repr := repr + {stm};
      StmAdded(name, stm);
    }

    // ----- Keys that go with their session -----

    /** The list holds the keys of this session and no others. */
    ghost predicate Lists(list: seq<KeyObject>, session: SessionObject)
      reads `keys
    {
      && (forall i :: 0 <= i < |list| ==> list[i].session == session && exists t :: t in keys && keys[t] == list[i])
      && (forall t :: t in keys && keys[t].session == session ==> keys[t] in list)
    }

    /** `__build_delete_key_list`: the keys of a session, in whatever order the table visits them. */
    method BuildDeleteList(session: SessionObject) returns (list: seq<KeyObject>)
      ensures Lists(list, session)
    {
      list := [];
      var left := keys.Keys;
      while left != {}
        invariant left <= keys.Keys
        invariant forall i :: 0 <= i < |list| ==> list[i].session == session && exists t :: t in keys && keys[t] == list[i]
        invariant forall t :: t in keys && t !in left && keys[t].session == session ==> keys[t] in list
        decreases left
      {
        var t :| t in left;
        left := left - {t};
        if keys[t].session == session {
          list := list + [keys[t]];
        }
      }
    }

    /** The table keys that the first n entries of a delete list really remove. */
    ghost function GoneBy(table: set<TableKey>, list: seq<KeyObject>, n: nat): (gone: set<TableKey>)
      requires n <= |list|
    {
      set j | 0 <= j < n && RemovalKey(cfg.cascade, list[j].url) in table :: RemovalKey(cfg.cascade, list[j].url)
    }

    lemma GoneByStep(table: set<TableKey>, list: seq<KeyObject>, n: nat)
      requires n < |list|
      ensures var rk := RemovalKey(cfg.cascade, list[n].url);
              GoneBy(table, list, n + 1) == GoneBy(table, list, n) + if rk in table then {rk} else {}
    {
    }

    lemma CacheIdsStep(table: map<TableKey, Key>, gone: set<TableKey>, rk: TableKey)
      requires rk in table
      ensures CacheIds(table, gone + {rk}) == CacheIds(table, gone) + {table[rk].cacheId}
    {
    }

    lemma GoneAre(list: seq<KeyObject>, session: SessionObject)
      requires KeysValid() && Allocated(session) && Lists(list, session)
      ensures GoneBy(keys.Keys, list, |list|) == RemovedWith(cfg.cascade, KeysAbs(), session.ptr)
    {
      var m := KeysAbs();
      forall rk | rk in GoneBy(keys.Keys, list, |list|)
        ensures rk in RemovedWith(cfg.cascade, m, session.ptr)
      {
        var j :| 0 <= j < |list| && RemovalKey(cfg.cascade, list[j].url) in keys && rk == RemovalKey(cfg.cascade, list[j].url);
        var t :| t in keys && keys[t] == list[j];
        assert m[t].session == session.ptr && m[t].url == list[j].url;
      }
      forall rk | rk in RemovedWith(cfg.cascade, m, session.ptr)
        ensures rk in GoneBy(keys.Keys, list, |list|)
      {
        var t :| t in m && m[t].session == session.ptr && rk == RemovalKey(cfg.cascade, m[t].url) && rk in m;
        assert keys[t].session == session;
        var j :| 0 <= j < |list| && list[j] == keys[t];
      }
    }

    /** `g_hash_table_remove` on the key table; the value destructor uncaches what goes. */
    method RemoveKey(rk: TableKey)
      requires !cache.modelOpen
      modifies `keys, cache`db, cache`deleteList
      ensures keys == old(keys) - {rk}
      ensures cache.db == if rk in old(keys) then Delete(old(cache.db), old(keys[rk].cacheId)) else old(cache.db)
    {
      if rk in keys {
        var victim := keys[rk];
        keys := keys - {rk};
        cache.Uncache(victim.cacheId);
      }
    }

    lemma RemovalStart(table: map<TableKey, Key>, list: seq<KeyObject>, db: Db)
      ensures table.Keys - GoneBy(table.Keys, list, 0) == table.Keys
      ensures DeleteSet(db, CacheIds(table, GoneBy(table.Keys, list, 0))) == db
    {
      assert GoneBy(table.Keys, list, 0) == {};
      assert CacheIds(table, {}) == {};
      DeleteNothing(db);
    }

    lemma RemovalStep(table: map<TableKey, Key>, list: seq<KeyObject>, i: nat, db0: Db)
      requires i < |list|
      ensures var rk := RemovalKey(cfg.cascade, list[i].url);
              var before, after := GoneBy(table.Keys, list, i), GoneBy(table.Keys, list, i + 1);
              var db := DeleteSet(db0, CacheIds(table, before));
              && before + (if rk in table then {rk} else {}) == after
              && (rk in table.Keys - before ==> Delete(db, table[rk].cacheId) == DeleteSet(db0, CacheIds(table, after)))
              && (rk !in table.Keys - before ==> db == DeleteSet(db0, CacheIds(table, after)))
    {
      var rk := RemovalKey(cfg.cascade, list[i].url);
      var before, after := GoneBy(table.Keys, list, i), GoneBy(table.Keys, list, i + 1);
      GoneByStep(table.Keys, list, i);
      if rk in table.Keys - before {
        CacheIdsStep(table, before, rk);
        DeleteSetTwice(db0, CacheIds(table, before), {table[rk].cacheId});
      } else {
        assert after == before;
      }
    }

    lemma KeysListed()
      ensures KeysAbs().Keys == keys.Keys
      ensures forall t :: t in keys ==> KeysAbs()[t] == keys[t].Abs()
    {
    }

    /** `__delete_key` for every entry of the list. */
    method RemoveListed(list: seq<KeyObject>)
      requires !cache.modelOpen
      modifies `keys, cache`db, cache`deleteList
      ensures keys == old(keys) - GoneBy(old(keys).Keys, list, |list|)
      ensures cache.db == DeleteSet(old(cache.db), CacheIds(old(KeysAbs()), GoneBy(old(keys).Keys, list, |list|)))
    {
      hide KeysAbs, GoneBy, CacheIds, DeleteSet, Delete;
      KeysListed();
      ghost var keys0, db0, table := keys, cache.db, KeysAbs();
      RemovalStart(table, list, db0);
      for i := 0 to |list|
        invariant keys == keys0 - GoneBy(keys0.Keys, list, i)
        invariant cache.db == DeleteSet(db0, CacheIds(table, GoneBy(keys0.Keys, list, i)))
        invariant !cache.modelOpen
      {
        RemovalStep(table, list, i, db0);
        RemoveKey(RemovalKey(cfg.cascade, list[i].url));
      }
    }

    twostate lemma FewerKeys(gone: set<TableKey>)
      requires keys == old(keys) - gone
      requires forall t :: t in keys ==> unchanged(keys[t])
      ensures KeysAbs() == old(KeysAbs()) - gone
      ensures old(KeysValid()) && old(heap) == heap ==> KeysValid()
      ensures (old(ReprValid()) && heap == old(heap) && stms == old(stms) && device.token == old(device.token)
               && repr == old(repr)) ==> ReprValid()
    {
    }

    /** `__keyagent_key_remove_by_session` */
    method RemoveBySession(session: SessionObject)
      requires Valid() && Allocated(session)
      modifies `keys, cache`db, cache`deleteList
      ensures Valid() && Abs() == AgentModel.RemoveBySession(cfg, old(Abs()), session.ptr)
    {
      hide HeapValid, StmsValid, SessionsValid, KeysValid, ReprValid, HeapAbs, StmsAbs, SessionsAbs, KeysAbs;
      var list := BuildDeleteList(session);
      GoneAre(list, session);
      RemoveListed(list);
      FewerKeys(RemovedWith(cfg.cascade, old(KeysAbs()), session.ptr));
    }

    // ----- Sessions -----

    twostate lemma FewerSessions(id: string)
      requires sessions == old(sessions) - {id} && heap == old(heap)
      ensures SessionsAbs() == old(SessionsAbs()) - {id}
      ensures old(SessionsValid()) ==> SessionsValid()
    {
    }

    lemma FindSession(id: string)
      requires id in sessions
      ensures id in SessionsAbs() && SessionsAbs()[id] == sessions[id].ptr
      ensures SessionsValid() ==> Allocated(sessions[id])
    {
    }

    /** `g_hash_table_remove` on the session table; the value destructor takes the session's keys along. */
    method RemoveSession(id: string)
      requires Valid()
      modifies `sessions, `keys, cache`db, cache`deleteList
      ensures Valid() && Abs() == AgentModel.RemoveSession(cfg, old(Abs()), id)
    {
      hide HeapValid, StmsValid, SessionsValid, KeysValid, ReprValid, HeapAbs, StmsAbs, SessionsAbs, KeysAbs;
      SessionKeys();
      if id in sessions {
        FindSession(id);
        var session := sessions[id];
        sessions := sessions - {id};
        FewerSessions(id);
        RemoveBySession(session);
      }
    }

    lemma SessionKeys()
      ensures SessionsAbs().Keys == sessions.Keys
    {
    }

    lemma FindStm(stm: string)
      requires stm in stms
      ensures stm in StmsAbs() && StmsAbs()[stm] == stms[stm].Abs()
      ensures StmsValid() ==> stms[stm].name == stm && (stms[stm].session != null ==> Allocated(stms[stm].session))
    {
    }

    lemma StmKeys()
      ensures StmsAbs().Keys == stms.Keys
    {
    }

    lemma FindPointer(s: SessionObject)
      requires Allocated(s)
      ensures s.ptr in HeapAbs() && HeapAbs()[s.ptr] == s.Abs()
    {
    }

    /** An STM's session makes way for one with another id. */
    method ClearTheWay(stm: string, id: string)
      requires Valid() && stm in stms
      modifies `sessions, `keys, cache`db, cache`deleteList
      ensures Valid() && Abs() == MakeWay(cfg, old(Abs()), stm, id)
    {
      hide HeapValid, StmsValid, SessionsValid, KeysValid, ReprValid, HeapAbs, StmsAbs, SessionsAbs, KeysAbs;
      FindStm(stm);
      var current := stms[stm].session;
      if current != null {
        FindPointer(current);
        if current.id != id {
          RemoveSession(current.id);
        }
      }
    }

    /** Only this session's structure changed. */
    twostate lemma OneSessionChanged(s: SessionObject)
      requires heap == old(heap) && Allocated(s)
      requires forall p :: p in heap && heap[p] != s ==> unchanged(heap[p])
      requires HeapValid()
      ensures HeapAbs() == old(HeapAbs())[s.ptr := s.Abs()]
    {
    }

    method TakeOverSwk(s: SessionObject, swk: Bytes)
      requires Valid() && Allocated(s)
      modifies s`swk
      ensures Valid() && Abs() == UpdateSwk(old(Abs()), s.ptr, swk)
    {
      hide HeapValid, StmsValid, SessionsValid, KeysValid, ReprValid, HeapAbs, StmsAbs, SessionsAbs, KeysAbs;
      FindPointer(s);
      if s.swk != swk {
        s.swk := swk;
        OneSessionChanged(s);
      }
    }

    twostate lemma SessionAllocated(new s: SessionObject, id: string)
      requires old(HeapValid()) && s.ptr == old(next) && next == s.ptr + 1 && heap == old(heap)[s.ptr := s]
      requires forall p :: p in old(heap) ==> unchanged(old(heap)[p])
      requires sessions == old(sessions)[id := s]
      ensures HeapValid() && HeapAbs() == old(HeapAbs())[s.ptr := s.Abs()]
      ensures SessionsAbs() == old(SessionsAbs())[id := s.ptr]
      ensures old(SessionsValid()) ==> SessionsValid()
    {
    }

    twostate lemma HeapGrew(new s: SessionObject)
      requires old(HeapValid()) && s.ptr == old(next) && heap == old(heap)[s.ptr := s]
      requires stms == old(stms) && keys == old(keys) && forall s :: s in stms ==> unchanged(stms[s])
      ensures old(StmsValid()) ==> StmsValid()
      ensures old(KeysValid()) ==> KeysValid()
      ensures old(ReprValid()) && device.token == old(device.token) && repr == old(repr) + {s} ==> ReprValid()
    {
    }

    method NewSessionObject(n: NewSession) returns (s: SessionObject)
      requires Valid()
      modifies `heap, `next, `sessions, `repr
      ensures Valid() && Allocated(s) && fresh(s) && s.ptr == old(next) && repr == old(repr) + {s}
      ensures Abs() == AddSession(old(Abs()), n.stm, n.id, n.swk, n.swkType)
    {
      hide HeapValid, StmsValid, SessionsValid, KeysValid, ReprValid, HeapAbs, StmsAbs, SessionsAbs, KeysAbs;
      s := new SessionObject(next, n.stm, n.id, n.swkType, n.swk);
      heap := heap[next := s];
      sessions := sessions[n.id := s];
      next := next + 1;
      repr := repr + {s};
      SessionAllocated(s, n.id);
      HeapGrew(s);
    }

    /** `__keyagent_cache_session` */
    method StoreSession(s: SessionObject, luck: Luck)
      requires Valid() && Allocated(s)
      modifies s`cacheId, cache`db
      ensures Valid() && Abs() == AgentModel.StoreSession(cfg, old(Abs()), s.ptr, luck)
    {
      hide HeapValid, StmsValid, SessionsValid, KeysValid, ReprValid, HeapAbs, StmsAbs, SessionsAbs, KeysAbs;
      FindPointer(s);
      var id, ok := cache.StoreSession(s.name, s.swk, s.id, s.swkType, luck);
      s.cacheId := id;
      OneSessionChanged(s);
    }

    twostate lemma OneStmChanged(stm: string, new p: SessionObject)
      requires stms == old(stms) && heap == old(heap) && stm in stms && stms[stm].session == p && old(StmsValid()) && Allocated(p)
      requires forall s :: s in stms && stms[s] != stms[stm] ==> unchanged(stms[s])
      ensures StmsAbs() == old(StmsAbs())[stm := Some(p.ptr)] && StmsValid()
    {
    }

    method MovePointer(stm: StmObject, s: SessionObject)
      requires Valid() && Allocated(s) && s.name in stms && stms[s.name] == stm
      modifies stm`session
      ensures Valid() && Abs() == old(Abs()).(stms := old(Abs()).stms[s.name := Some(s.ptr)])
    {
      hide HeapValid, StmsValid, SessionsValid, KeysValid, ReprValid, HeapAbs, StmsAbs, SessionsAbs, KeysAbs;
      stm.session := s;
      OneStmChanged(s.name, s);
    }

    /** `__keyagent_stm_set_session` */
    method SetSession(request: string, s: SessionObject, unwrap: bool) returns (ok: bool)
      requires Valid() && Allocated(s)
      modifies set t | t in stms :: stms[t], device, device.token
      ensures Valid() && device.token == old(device.token)
      ensures Outcome(Abs(), ok) == AgentModel.SetSession(old(Abs()), request, s.ptr, unwrap)
    {
      hide HeapValid, StmsValid, SessionsValid, KeysValid, ReprValid, HeapAbs, StmsAbs, SessionsAbs, KeysAbs;
      FindPointer(s);
      StmKeys();
      ok := false;
      if s.name in stms && request in requests {
        MovePointer(stms[s.name], s);
        ok := device.UseWrappingKey(s.name, requests[request], s.swk, unwrap);
      }
    }

    /** Everything up to the caching call: the table is searched before anything is removed from it. */
    method Install(n: NewSession) returns (s: SessionObject)
      requires Valid() && n.stm in stms
      modifies `heap, `next, `sessions, `keys, `repr, cache`db, cache`deleteList, set p | p in heap :: heap[p]
      ensures Valid() && Allocated(s) && s.ptr == Target(old(Abs()), n)
      ensures fresh(repr - old(repr)) && s in repr
      ensures Abs() == Installed(cfg, old(Abs()), n)
    {
      hide HeapValid, StmsValid, SessionsValid, KeysValid, ReprValid, HeapAbs, StmsAbs, SessionsAbs, KeysAbs;
      SessionKeys();
      InRepr();
      if n.id in sessions {
        FindSession(n.id);
        s := sessions[n.id];
        ClearTheWay(n.stm, n.id);
        TakeOverSwk(s, n.swk);
      } else {
        ClearTheWay(n.stm, n.id);
        s := NewSessionObject(n);
      }
    }

    /** From the removal of the old session to the word of the STM. */
    method SetUpSession(n: NewSession) returns (ok: bool)
      requires Valid() && n.stm in stms
      modifies repr
      ensures Valid() && fresh(repr - old(repr))
      ensures Outcome(Abs(), ok) ==
                AgentModel.SetSession(AgentModel.StoreSession(cfg, Installed(cfg, old(Abs()), n), Target(old(Abs()), n), n.luck),
                                      n.request, Target(old(Abs()), n), n.unwrap)
    {
      hide *;
      InRepr();
      var s := Install(n);
      InRepr();
      StoreSession(s, n.luck);
      ok := SetSession(n.request, s, n.unwrap);
    }

    lemma CreateSessionSteps(n: NewSession)
      ensures Admitted(Abs(), n) <==> SwkTypes.LookupSwkType(n.swkType).Some? && n.stm in stms
      ensures AgentModel.CreateSession(cfg, Abs(), n) ==
                if !Admitted(Abs(), n) then Outcome(Abs(), false)
                else AgentModel.SetSession(AgentModel.StoreSession(cfg, Installed(cfg, Abs(), n), Target(Abs(), n), n.luck),
                                           n.request, Target(Abs(), n), n.unwrap)
    {
    }

    /** `keyagent_session_create` */
    method CreateSession(n: NewSession) returns (ok: bool)
      requires Valid()
      modifies repr
      ensures Valid() && fresh(repr - old(repr))
      ensures Outcome(Abs(), ok) == AgentModel.CreateSession(cfg, old(Abs()), n)
    {
      hide *;
      ok := false;
      InRepr();
      CreateSessionSteps(n);
      if SwkTypes.LookupSwkType(n.swkType).Some? && n.stm in stms {
        ok := SetUpSession(n);
      }
    }

    // ----- Keys -----

    lemma FindKey(t: TableKey)
      requires t in keys
      ensures t in KeysAbs() && KeysAbs()[t] == keys[t].Abs()
      ensures KeysValid() ==> t == QuarkOf(keys[t].url) && Allocated(keys[t].session) && KEYDATA in keys[t].attrs
    {
    }

    twostate lemma OneKeyChanged(t: TableKey)
      requires keys == old(keys) && heap == old(heap) && t in keys && KeysValid()
      requires forall u :: u in keys && keys[u] != keys[t] ==> unchanged(keys[u])
      ensures KeysAbs() == old(KeysAbs())[t := keys[t].Abs()]
    {
    }

    twostate lemma KeyAdded(new k: KeyObject)
      requires old(KeysValid()) && heap == old(heap) && keys == old(keys)[QuarkOf(k.url) := k]
      requires Allocated(k.session) && KEYDATA in k.attrs
      requires forall t :: t in old(keys) ==> unchanged(old(keys)[t])
      ensures KeysValid() && KeysAbs() == old(KeysAbs())[QuarkOf(k.url) := k.Abs()]
      ensures old(ReprValid()) && stms == old(stms) && device.token == old(device.token) && repr == old(repr) + {k} ==> ReprValid()
    {
    }

    /** `__keyagent_cache_key` */
    method StoreKey(k: KeyObject, luck: Luck)
      requires Valid() && QuarkOf(k.url) in keys && keys[QuarkOf(k.url)] == k
      modifies k`cacheId, cache`db
      ensures Valid() && QuarkOf(k.url) in old(Abs()).keys
      ensures Abs() == AgentModel.StoreKey(cfg, old(Abs()), QuarkOf(k.url), luck)
    {
      hide HeapValid, StmsValid, SessionsValid, KeysValid, ReprValid, HeapAbs, StmsAbs, SessionsAbs, KeysAbs;
      FindKey(QuarkOf(k.url));
      FindPointer(k.session);
      var id, ok := cache.StoreKey(k.url, k.session.id, k.typ, k.attrs[KEYDATA], luck);
      k.cacheId := id;
      OneKeyChanged(QuarkOf(k.url));
    }

    method AddKeyObject(n: NewKey) returns (k: KeyObject)
      requires Valid() && n.attrs.Some? && n.sessionId.Some? && KEYDATA in n.attrs.value && n.sessionId.value in sessions
      modifies `keys, `repr
      ensures Valid() && fresh(k) && k.url == n.url && keys == old(keys)[QuarkOf(n.url) := k] && repr == old(repr) + {k}
      ensures KeyAdmitted(old(Abs()), n) && Abs() == AddKey(old(Abs()), n)
    {
      hide HeapValid, StmsValid, SessionsValid, KeysValid, ReprValid, HeapAbs, StmsAbs, SessionsAbs, KeysAbs;
      FindSession(n.sessionId.value);
      k := new KeyObject(n.url, n.typ, sessions[n.sessionId.value], n.attrs.value);
      keys := keys[QuarkOf(n.url) := k];
      repr := repr + {k};
      KeyAdded(k);
    }

    lemma CreateKeySteps(n: NewKey)
      ensures QuarkOf(n.url) in Abs().keys <==> QuarkOf(n.url) in keys
      ensures KeyAdmitted(Abs(), n) <==>
                n.attrs.Some? && n.sessionId.Some? && KEYDATA in n.attrs.value && n.sessionId.value in sessions
      ensures AgentModel.CreateKey(cfg, Abs(), n) ==
                if QuarkOf(n.url) in Abs().keys then Outcome(AgentModel.StoreKey(cfg, Abs(), QuarkOf(n.url), n.luck), true)
                else if !KeyAdmitted(Abs(), n) then Outcome(Abs(), false)
                else Outcome(AgentModel.StoreKey(cfg, AddKey(Abs(), n), QuarkOf(n.url), n.luck), true)
    {
    }

    /** `__keyagent_key_create` */
    method CreateKey(n: NewKey) returns (ok: bool)
      requires Valid()
      modifies repr
      ensures Valid() && fresh(repr - old(repr))
      ensures Outcome(Abs(), ok) == AgentModel.CreateKey(cfg, old(Abs()), n)
    {
      hide *;
      ok := true;
      InRepr();
      CreateKeySteps(n);
      if QuarkOf(n.url) in keys {
        SameUrl(n.url);
        StoreKey(keys[QuarkOf(n.url)], n.luck);
      } else if n.attrs.None? || n.sessionId.None? || KEYDATA !in n.attrs.value || n.sessionId.value !in sessions {
        ok := false;
      } else {
        var k := AddKeyObject(n);
        StoreKey(k, n.luck);
      }
    }

    lemma SameUrl(url: string)
      requires Valid() && QuarkOf(url) in keys
      ensures keys[QuarkOf(url)].url == url
    {
    }

    // ----- What the token library is asked -----

    twostate lemma TokenWasMine()
      requires old(ReprValid())
      ensures old(device.token) != null ==> old(device.token) in old(repr)
    {
    }

    twostate lemma TokenMade()
      requires heap == old(heap) && stms == old(stms) && keys == old(keys) && old(ReprValid())
      requires repr == old(repr) + (if device.token == null then {} else {device.token})
      ensures ReprValid()
    {
    }

    lemma TokenKnown()
      ensures Abs().device.token == if device.token == null then None else Some(device.token.Abs())
    {
    }

    /** A token object that C_OnDemand_KeyLoad found and put into the token table. */
    method CacheToken(t: TokenInit, pin: string)
      requires Valid() && device.token == null && t.CachedToken?
      modifies device`token, `repr
      ensures Valid() && fresh(repr - old(repr))
      ensures Abs() == old(Abs()).(device := SetUp(old(Abs()).device, t, pin))
    {
      hide HeapValid, StmsValid, SessionsValid, KeysValid, ReprValid, HeapAbs, StmsAbs, SessionsAbs, KeysAbs;
      var token := new ApiToken(t.hasSession, pin);
      device.token := token;
      repr := repr + {token};
      TokenMade();
    }

    /** `__keyagent_stm_get_challenge` */
    method TakeChallenge(request: string, stm: string, nonce: Bytes, luck: ChallengeLuck) returns (ok: bool)
      requires Valid()
      modifies device, device.token, `repr
      ensures Valid() && fresh(repr - old(repr))
      ensures Outcome(Abs(), ok) == AgentModel.TakeChallenge(old(Abs()), request, stm, nonce, luck)
    {
      hide HeapValid, StmsValid, SessionsValid, KeysValid, ReprValid, HeapAbs, StmsAbs, SessionsAbs, KeysAbs, GetChallenge;
      StmKeys();
      ok := false;
      if stm in stms && request in requests {
        ok := device.Challenge(stm, requests[request], nonce, luck);
        repr := repr + if device.token == null then {} else {device.token};
        TokenMade();
        TokenWasMine();
      }
    }

    /** What the STM gets to see of a key: the record cut into its parts, and the type of the wrapping key of the session
        that the STM has now. */
    method KeyDetails(request: string, k: KeyObject) returns (details: Option<Details>)
      requires Valid() && Allocated(k.session) && KEYDATA in k.attrs
      ensures details == HandOver(Abs(), request, k.Abs())
    {
      hide HeapValid, StmsValid, SessionsValid, KeysValid, ReprValid, HeapAbs, StmsAbs, SessionsAbs, KeysAbs;
      FindPointer(k.session);
      StmKeys();
      details := None;
      var stm := k.session.name;
      if stm in stms && request in requests {
        FindStm(stm);
        var current := stms[stm].session;
        if current != null {
          FindPointer(current);
          var data := k.attrs[KEYDATA];
          if KeyTransfer.Covered(data) {
            var parts := KeyTransfer.Parse(data);
            if parts.Some? {
              details := Some(Details(current.ptr, SwkTypes.LookupSwkType(current.swkType), stm, requests[request],
                                      parts.value, k.typ));
            }
          }
        }
      }
    }

    /** `__keyagent_stm_load_key` */
    method LoadToStm(request: string, k: KeyObject, unwrap: bool) returns (ok: bool)
      requires Valid() && Allocated(k.session) && KEYDATA in k.attrs
      modifies device`objects, device`next
      ensures Valid()
      ensures Outcome(Abs(), ok) == AgentModel.LoadToStm(old(Abs()), request, k.Abs(), unwrap)
    {
      hide HeapValid, StmsValid, SessionsValid, KeysValid, ReprValid, HeapAbs, StmsAbs, SessionsAbs, KeysAbs, HandOver;
      var d := KeyDetails(request, k);
      ok := false;
      if d.Some? {
        ok := device.InstallKey(d.value.stm, d.value.data, d.value.parts, d.value.typ, unwrap);
      }
    }

    // ----- NPMs at work -----

    lemma CallSteps(c: Callback)
      requires Valid()
      ensures c.OnSetSession? ==> (c.p in Abs().heap <==> c.p in heap)
      ensures c.OnSetSession? && c.p in heap ==> Allocated(heap[c.p]) && heap[c.p].ptr == c.p
      ensures AgentModel.Call(cfg, Abs(), c) ==
                match c
                case OnSession(n) => AgentModel.CreateSession(cfg, Abs(), n)
                case OnKey(n) => AgentModel.CreateKey(cfg, Abs(), n)
                case OnChallenge(request, stm, nonce, luck) => AgentModel.TakeChallenge(Abs(), request, stm, nonce, luck)
                case OnSetSession(request, p, unwrap) =>
                  if p in Abs().heap then AgentModel.SetSession(Abs(), request, p, unwrap) else Outcome(Abs(), false)
    {
    }

    /** One callback. */
    method Call(c: Callback) returns (ok: bool)
      requires Valid()
      modifies repr
      ensures Valid() && fresh(repr - old(repr))
      ensures Outcome(Abs(), ok) == AgentModel.Call(cfg, old(Abs()), c)
    {
      hide *;
      InRepr();
      CallSteps(c);
      ok := false;
      match c {
        case OnSession(n) =>
          ok := CreateSession(n);
        case OnKey(n) =>
          ok := CreateKey(n);
        case OnChallenge(request, stm, nonce, luck) =>
          ok := TakeChallenge(request, stm, nonce, luck);
        case OnSetSession(request, p, unwrap) =>
          if p in heap {
            ok := SetSession(request, heap[p], unwrap);
          }
      }
    }

    /** The callbacks of one NPM, in the order in which it makes them. */
    method MakeCalls(calls: seq<Callback>)
      requires Valid()
      modifies repr
      ensures Valid() && fresh(repr - old(repr))
      ensures Abs() == Calls(cfg, old(Abs()), calls)
      decreases |calls|
    {
      hide Abs, Valid, AgentModel.Call;
      if calls != [] {
        var ok := Call(calls[0]);
        MakeCalls(calls[1..]);
      }
    }

    // ----- Loading a key -----

    method Begin(data: Option<UriData>, run: NpmRun)
      requires Valid()
      modifies `requests
      ensures Valid() && Abs() == AgentModel.Begin(old(Abs()), data, run)
    {
      hide HeapValid, StmsValid, SessionsValid, KeysValid, ReprValid, HeapAbs, StmsAbs, SessionsAbs, KeysAbs;
      requests := requests[run.request := data];
    }

    method End(run: NpmRun)
      requires Valid()
      modifies `requests
      ensures Valid() && Abs() == AgentModel.End(old(Abs()), run)
    {
      hide HeapValid, StmsValid, SessionsValid, KeysValid, ReprValid, HeapAbs, StmsAbs, SessionsAbs, KeysAbs;
      requests := requests - {run.request};
    }

    /** The STM is asked only when the key is there. */
    method Deliver(url: string, run: NpmRun) returns (ok: bool)
      requires Valid()
      modifies device`objects, device`next
      ensures Valid()
      ensures Outcome(Abs(), ok) == AgentModel.Deliver(old(Abs()), url, run)
    {
      hide HeapValid, StmsValid, SessionsValid, KeysValid, ReprValid, HeapAbs, StmsAbs, SessionsAbs, KeysAbs;
      KeysListed();
      ok := true;
      if QuarkOf(url) in keys {
        FindKey(QuarkOf(url));
        ok := LoadToStm(run.request, keys[QuarkOf(url)], run.unwrap);
      }
    }

    /** `_loadkey` for one NPM. */
    method TryNpm(url: string, data: Option<UriData>, run: NpmRun) returns (ok: bool)
      requires Valid()
      modifies repr
      ensures Valid() && fresh(repr - old(repr))
      ensures Outcome(Abs(), ok) == AgentModel.TryNpm(cfg, old(Abs()), url, data, run)
    {
      hide Abs, Valid, Calls, AgentModel.Begin, AgentModel.Deliver, AgentModel.End;
      ok := false;
      if run.initialized && run.registers {
        InRepr();
        Begin(data, run);
        MakeCalls(run.calls);
        InRepr();
        ok := Deliver(url, run);
        End(run);
      }
    }

    /** `g_hash_table_find` over the NPMs: it ends with the first one that returns TRUE. */
    method WalkNpms(url: string, data: Option<UriData>, runs: seq<NpmRun>) returns (found: bool)
      requires Valid()
      modifies repr
      ensures Valid() && fresh(repr - old(repr))
      ensures Outcome(Abs(), found) == AgentModel.WalkNpms(cfg, old(Abs()), url, data, runs)
    {
      hide Abs, Valid, AgentModel.WalkNpms, AgentModel.TryNpm;
      found := false;
      var i := 0;
      while i < |runs| && !found
        invariant i <= |runs| && Valid() && fresh(repr - old(repr))
        invariant AgentModel.WalkNpms(cfg, old(Abs()), url, data, runs) ==
                    if found then Outcome(Abs(), true) else AgentModel.WalkNpms(cfg, Abs(), url, data, runs[i..])
      {
        WalkStep(Abs(), url, data, runs, i);
        found := TryNpm(url, data, runs[i]);
        i := i + 1;
      }
      WalkDone(Abs(), url, data);
      assert runs[|runs|..] == [];
    }

    lemma WalkStep(st: State, url: string, data: Option<UriData>, runs: seq<NpmRun>, i: nat)
      requires i < |runs|
      ensures AgentModel.WalkNpms(cfg, st, url, data, runs[i..]) ==
                var o := AgentModel.TryNpm(cfg, st, url, data, runs[i]);
                if o.ok then o else AgentModel.WalkNpms(cfg, o.st, url, data, runs[i + 1..])
    {
      assert runs[i..][1..] == runs[i + 1..];
    }

    lemma WalkDone(st: State, url: string, data: Option<UriData>)
      ensures AgentModel.WalkNpms(cfg, st, url, data, []) == Outcome(st, false)
    {
    }

    method SetLock(on: bool)
      requires Valid()
      modifies `locked
      ensures Valid() && Abs() == old(Abs()).(locked := on)
    {
      hide HeapValid, StmsValid, SessionsValid, KeysValid, ReprValid, HeapAbs, StmsAbs, SessionsAbs, KeysAbs;
      locked := on;
    }

    lemma KeyKeys()
      ensures Abs().keys.Keys == keys.Keys && Abs().locked == locked
    {
    }

    /** `keyagent_loadkey_with_moduledata`. The lock is not recursive: a caller that held it would never get it. */
    method LoadUrl(url: string, data: Option<UriData>, runs: seq<NpmRun>) returns (ok: bool)
      requires Valid() && !locked
      modifies repr
      ensures Valid() && fresh(repr - old(repr))
      ensures Outcome(Abs(), ok) == AgentModel.LoadUrl(cfg, old(Abs()), url, data, runs)
    {
      hide Abs, Valid, AgentModel.WalkNpms, UrlAccepted, Split;
      ok := false;
      KeyKeys();
      if UrlAccepted(url) {
        InRepr();
        SetLock(true);
        if QuarkOf(url) in keys {
          ok := true;
        } else {
          var walked := WalkNpms(url, data, runs);
          KeyKeys();
          InRepr();
          ok := walked && QuarkOf(url) in keys;
        }
        SetLock(false);
      }
    }
  }
}
