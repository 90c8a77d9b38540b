/** What every call of an NPM keeps in the key agent's tables. */
module AgentLaws {
  import opened Strings
  import opened Cache
  import opened Token
  import opened AgentModel
  import SwkTypes

  // ----- Invariants -----

  /** Sessions stand in the table under their own ids, keys under the quarks of their own URLs. */
  predicate TablesKeyed(st: State) {
    && (forall id :: id in st.sessions ==> st.sessions[id] in st.heap && st.heap[st.sessions[id]].id == id)
    && (forall t :: t in st.keys ==> t == QuarkOf(st.keys[t].url))
  }

  /** An STM points to sessions that name it; every session names a known STM. */
  predicate OwnNames(st: State) {
    && (forall s :: s in st.stms && st.stms[s].Some? ==> st.stms[s].value in st.heap && st.heap[st.stms[s].value].name == s)
    && (forall p :: p in st.heap ==> st.heap[p].name in st.stms)
  }

  /** Every session has a wrapping key type that lookup finds. */
  predicate TypesKnown(st: State) {
    forall p :: p in st.heap ==> SwkTypes.LookupSwkType(st.heap[p].swkType).Some?
  }

  predicate Wired(st: State) {
    PointersLive(st) && TablesKeyed(st) && OwnNames(st)
  }

  /** Each session of the table is the current session of the STM it names. */
  predicate Current(st: State) {
    forall id :: id in st.sessions ==>
      && st.sessions[id] in st.heap
      && st.heap[st.sessions[id]].name in st.stms
      && st.stms[st.heap[st.sessions[id]].name] == Some(st.sessions[id])
  }

  /** The session structure is the one that the table lists under its id. */
  predicate Listed(st: State, p: Ptr) {
    p in st.heap && st.heap[p].id in st.sessions && st.sessions[st.heap[p].id] == p
  }

  /** No key outlives its session. */
  predicate Bound(st: State) {
    forall t :: t in st.keys ==> Listed(st, st.keys[t].session)
  }

  /** An STM never has two live sessions. */
  lemma OneSessionPerStm(st: State, a: string, b: string)
    requires TablesKeyed(st) && Current(st)
    requires a in st.sessions && b in st.sessions
    requires st.heap[st.sessions[a]].name == st.heap[st.sessions[b]].name
    ensures a == b
  {
  }

  // ----- The whole effect of keyagent_session_create -----

  /** The id whose table entry gives way: that of the STM's current session, if it is another one. */
  function GivesWay(st: State, n: NewSession): (ids: set<string>) {
    var current := StmSession(st, n.stm);
    if current.Some? && Deref(st, current.value).id != n.id && Deref(st, current.value).id in st.sessions
    then {Deref(st, current.value).id} else {}
  }

  /** The keys that go with it. */
  function GoingKeys(cfg: Config, st: State, n: NewSession): (gone: set<TableKey>) {
    set id, t | id in GivesWay(st, n) && id in st.sessions && t in RemovedWith(cfg.cascade, st.keys, st.sessions[id]) :: t
  }

  /** The session as the call leaves it, but for its cache id. */
  function Renewed(st: State, n: NewSession): (s: Session) {
    if n.id in st.sessions then Deref(st, st.sessions[n.id]).(swk := n.swk)
    else Session(n.stm, n.id, n.swkType, n.swk, NO_ID)
  }

  function CachedAs(cfg: Config, st: State, n: NewSession): (c: Cached) {
    var s := Renewed(st, n);
    CacheSession(cfg.cacheSessions, DeleteSet(st.db, CacheIds(st.keys, GoingKeys(cfg, st, n))),
                 s.name, s.swk, s.id, s.swkType, n.luck)
  }

  function WrappedFor(st: State, n: NewSession): (d: DeviceOutcome) {
    var s := Renewed(st, n);
    if s.name in st.stms && n.request in st.requests
    then SetWrappingKey(st.device, s.name, st.requests[n.request], s.swk, n.unwrap)
    else DeviceOutcome(st.device, false)
  }

  /** Every field of the state after an admitted call. */
  function Created(cfg: Config, st: State, n: NewSession): (r: State) {
    var p := Target(st, n);
    var s := Renewed(st, n);
    State(
      st.heap[p := s.(cacheId := CachedAs(cfg, st, n).id)],
      if n.id in st.sessions then st.next else st.next + 1,
      if s.name in st.stms && n.request in st.requests then st.stms[s.name := Some(p)] else st.stms,
      (st.sessions - GivesWay(st, n))[n.id := p],
      st.keys - GoingKeys(cfg, st, n),
      st.requests,
      CachedAs(cfg, st, n).db,
      WrappedFor(st, n).device,
      st.locked)
  }

  lemma NothingGoes(st: State)
    ensures DeleteSet(st.db, CacheIds(st.keys, {})) == st.db
    ensures st.keys - {} == st.keys && st.sessions - {} == st.sessions
  {
    assert CacheIds(st.keys, {}) == {};
    DeleteNothing(st.db);
  }

  lemma GoingKeysOf(cfg: Config, st: State, n: NewSession)
    ensures GivesWay(st, n) == {} ==> GoingKeys(cfg, st, n) == {}
    ensures forall id :: id in GivesWay(st, n) && id in st.sessions ==>
              GoingKeys(cfg, st, n) == RemovedWith(cfg.cascade, st.keys, st.sessions[id])
  {
  }

  lemma MakeWayFields(cfg: Config, st: State, n: NewSession)
    ensures MakeWay(cfg, st, n.stm, n.id)
         == st.(sessions := st.sessions - GivesWay(st, n), keys := st.keys - GoingKeys(cfg, st, n),
                db := DeleteSet(st.db, CacheIds(st.keys, GoingKeys(cfg, st, n))))
  {
    NothingGoes(st);
    GoingKeysOf(cfg, st, n);
  }

  lemma SwkFields(st: State, p: Ptr, swk: Bytes)
    requires p in st.heap
    ensures UpdateSwk(st, p, swk) == st.(heap := st.heap[p := Deref(st, p).(swk := swk)])
  {
    assert Deref(st, p).swk == swk ==> st.heap[p := st.heap[p].(swk := swk)] == st.heap;
  }

  lemma SameEntry(m: map<string, Ptr>, id: string)
    requires id in m
    ensures m[id := m[id]] == m
  {
  }

  lemma InstalledFields(cfg: Config, st: State, n: NewSession)
    requires PointersLive(st)
    ensures var way := MakeWay(cfg, st, n.stm, n.id);
            Installed(cfg, st, n)
            == way.(heap := st.heap[Target(st, n) := Renewed(st, n)],
                    next := if n.id in st.sessions then st.next else st.next + 1,
                    sessions := way.sessions[n.id := Target(st, n)])
  {
    MakeWayFields(cfg, st, n);
    var way := MakeWay(cfg, st, n.stm, n.id);
    if n.id in st.sessions {
      SwkFields(way, st.sessions[n.id], n.swk);
      SameEntry(way.sessions, n.id);
    }
  }

  lemma StoredFields(cfg: Config, st: State, p: Ptr, s: Session, before: map<Ptr, Session>, luck: Luck)
    requires st.heap == before[p := s]
    ensures var c := CacheSession(cfg.cacheSessions, st.db, s.name, s.swk, s.id, s.swkType, luck);
            StoreSession(cfg, st, p, luck) == st.(db := c.db, heap := before[p := s.(cacheId := c.id)])
  {
  }

  /** A call that is not admitted changes nothing; an admitted call leaves exactly the state Created describes. */
  lemma CreateSessionEffect(cfg: Config, st: State, n: NewSession)
    requires PointersLive(st)
    ensures !Admitted(st, n) ==> CreateSession(cfg, st, n) == Outcome(st, false)
    ensures Admitted(st, n) ==> CreateSession(cfg, st, n) == Outcome(Created(cfg, st, n), WrappedFor(st, n).ok)
  {
    MakeWayFields(cfg, st, n);
    InstalledFields(cfg, st, n);
    StoredFields(cfg, Installed(cfg, st, n), Target(st, n), Renewed(st, n), st.heap, n.luck);
  }

  // ----- What creating a session keeps -----

  /** The part of the effect that concerns the tables. */
  predicate TableEffect(st: State, n: NewSession, gone: set<TableKey>, r: State) {
    var p := Target(st, n);
    && p in r.heap
    && r.heap == st.heap[p := Renewed(st, n).(cacheId := r.heap[p].cacheId)]
    && r.next == (if n.id in st.sessions then st.next else st.next + 1)
    && r.stms == (if Renewed(st, n).name in st.stms && n.request in st.requests
                  then st.stms[Renewed(st, n).name := Some(p)] else st.stms)
    && r.sessions == (st.sessions - GivesWay(st, n))[n.id := p]
    && r.keys == st.keys - gone
  }

  lemma CreatedTables(cfg: Config, st: State, n: NewSession)
    ensures TableEffect(st, n, GoingKeys(cfg, st, n), Created(cfg, st, n))
  {
  }

  lemma EffectPointers(st: State, n: NewSession, gone: set<TableKey>, r: State)
    requires Wired(st) && n.stm in st.stms && TableEffect(st, n, gone, r)
    ensures PointersLive(r)
  {
    var p := Target(st, n);
    assert r.heap.Keys == st.heap.Keys + {p};
    assert forall id :: id in r.sessions ==> r.sessions[id] == p || (id in st.sessions && r.sessions[id] == st.sessions[id]);
    assert forall s :: s in r.stms ==> r.stms[s] == Some(p) || (s in st.stms && r.stms[s] == st.stms[s]);
  }

  lemma EffectKeyed(st: State, n: NewSession, gone: set<TableKey>, r: State)
    requires Wired(st) && n.stm in st.stms && TableEffect(st, n, gone, r)
    ensures TablesKeyed(r)
    ensures r.heap[Target(st, n)].id == n.id
    ensures forall q :: q in st.heap ==> q in r.heap && r.heap[q].id == st.heap[q].id && r.heap[q].name == st.heap[q].name
  {
  }

  lemma RenewedNames(st: State, n: NewSession)
    requires Wired(st) && n.stm in st.stms
    ensures Renewed(st, n).name in st.stms
    ensures Target(st, n) in st.heap ==> st.heap[Target(st, n)].name == Renewed(st, n).name
  {
  }

  lemma EffectNames(st: State, n: NewSession, gone: set<TableKey>, r: State)
    requires Wired(st) && n.stm in st.stms && TableEffect(st, n, gone, r)
    ensures OwnNames(r)
    ensures Renewed(st, n).name in st.stms
  {
    RenewedNames(st, n);
    var p := Target(st, n);
    assert r.heap[p].name == Renewed(st, n).name;
    forall s | s in r.stms && r.stms[s].Some?
      ensures r.stms[s].value in r.heap && r.heap[r.stms[s].value].name == s
    {
      if r.stms[s] != Some(p) {
        assert s in st.stms && r.stms[s] == st.stms[s];
      }
    }
  }

  lemma CreatedWired(cfg: Config, st: State, n: NewSession)
    requires Wired(st) && n.stm in st.stms
    ensures Wired(Created(cfg, st, n))
  {
    CreatedTables(cfg, st, n);
    EffectPointers(st, n, GoingKeys(cfg, st, n), Created(cfg, st, n));
    EffectKeyed(st, n, GoingKeys(cfg, st, n), Created(cfg, st, n));
    EffectNames(st, n, GoingKeys(cfg, st, n), Created(cfg, st, n));
  }

  lemma CreatedTypes(cfg: Config, st: State, n: NewSession)
    requires PointersLive(st) && TypesKnown(st) && Admitted(st, n)
    ensures TypesKnown(Created(cfg, st, n))
  {
    CreatedTables(cfg, st, n);
  }

  lemma EffectCurrent(st: State, n: NewSession, gone: set<TableKey>, r: State)
    requires Wired(st) && Current(st) && n.stm in st.stms && TableEffect(st, n, gone, r)
    requires n.request in st.requests || n.id in st.sessions
    ensures Current(r)
  {
    EffectKeyed(st, n, gone, r);
    EffectNames(st, n, gone, r);
    forall id | id in r.sessions
      ensures r.sessions[id] in r.heap && r.heap[r.sessions[id]].name in r.stms
      ensures r.stms[r.heap[r.sessions[id]].name] == Some(r.sessions[id])
    {
      if id != n.id {
        var q := st.sessions[id];
        assert st.stms[st.heap[q].name] == Some(q);
        if st.heap[q].name == n.stm {
          assert GivesWay(st, n) == {id};
        }
      }
    }
  }

  /** Each session of the table stays the current session of its STM, even when the STM refuses it or the id was already
      known. The one exception is a new id created under a request that is not registered. */
  lemma CreatedCurrent(cfg: Config, st: State, n: NewSession)
    requires Wired(st) && Current(st) && n.stm in st.stms
    ensures Current(Created(cfg, st, n)) <==> n.request in st.requests || n.id in st.sessions
  {
    var r := Created(cfg, st, n);
    CreatedTables(cfg, st, n);
    if n.request in st.requests || n.id in st.sessions {
      EffectCurrent(st, n, GoingKeys(cfg, st, n), r);
    } else {
      EffectNotCurrent(st, n, GoingKeys(cfg, st, n), r);
    }
  }

  lemma EffectNotCurrent(st: State, n: NewSession, gone: set<TableKey>, r: State)
    requires Wired(st) && n.stm in st.stms && TableEffect(st, n, gone, r)
    requires n.request !in st.requests && n.id !in st.sessions
    ensures !Current(r)
  {
    assert r.sessions[n.id] == st.next && r.heap[st.next].name == n.stm;
    assert r.stms[n.stm] != Some(st.next);
  }

  /** The converse, that an STM's session pointer leads to a session of the table. */
  predicate PointersListed(st: State) {
    forall s :: s in st.stms && st.stms[s].Some? ==> Listed(st, st.stms[s].value)
  }

  lemma EffectPointersListed(st: State, n: NewSession, gone: set<TableKey>, r: State)
    requires Wired(st) && PointersListed(st) && Admitted(st, n) && TableEffect(st, n, gone, r)
    requires GivesWay(st, n) == {} || (n.request in st.requests && Renewed(st, n).name == n.stm)
    ensures PointersListed(r)
  {
    forall s | s in r.stms && r.stms[s].Some?
      ensures Listed(r, r.stms[s].value)
    {
      EffectPointerListed(st, n, gone, r, s);
    }
  }

  lemma EffectPointerListed(st: State, n: NewSession, gone: set<TableKey>, r: State, s: string)
    requires Wired(st) && PointersListed(st) && Admitted(st, n) && TableEffect(st, n, gone, r)
    requires GivesWay(st, n) == {} || (n.request in st.requests && Renewed(st, n).name == n.stm)
    requires s in r.stms && r.stms[s].Some?
    ensures Listed(r, r.stms[s].value)
  {
    hide SwkTypes.LookupSwkType;
    EffectKeyed(st, n, gone, r);
    if r.stms[s].value != Target(st, n) {
      assert s in st.stms && r.stms[s] == st.stms[s];
      assert Listed(st, st.stms[s].value);
    }
  }

  lemma EffectPointerStale(st: State, n: NewSession, gone: set<TableKey>, r: State)
    requires Wired(st) && Admitted(st, n) && TableEffect(st, n, gone, r)
    requires GivesWay(st, n) != {} && !(n.request in st.requests && Renewed(st, n).name == n.stm)
    ensures !PointersListed(r)
  {
    EffectKeyed(st, n, gone, r);
    assert r.stms[n.stm] == StmSession(st, n.stm);
    assert !Listed(r, r.stms[n.stm].value);
  }

  /** It is kept exactly when no session gives way, or the STM it gives way for gets the new session: a known id that is
      reused under the label of another STM, or an unregistered request, leaves that STM with a stale pointer. */
  lemma CreatedPointersListed(cfg: Config, st: State, n: NewSession)
    requires Wired(st) && PointersListed(st) && Admitted(st, n)
    ensures PointersListed(Created(cfg, st, n)) <==>
              GivesWay(st, n) == {} || (n.request in st.requests && Renewed(st, n).name == n.stm)
  {
    CreatedTables(cfg, st, n);
    if GivesWay(st, n) == {} || (n.request in st.requests && Renewed(st, n).name == n.stm) {
      EffectPointersListed(st, n, GoingKeys(cfg, st, n), Created(cfg, st, n));
    } else {
      EffectPointerStale(st, n, GoingKeys(cfg, st, n), Created(cfg, st, n));
    }
  }

  /** Two STMs with a session each, ids "x" and "y". */
  function TwoStms(swkType: string): (st: State) {
    State(map[0 := Session("A", "x", swkType, [1], NO_ID), 1 := Session("B", "y", swkType, [2], NO_ID)], 2,
          map["A" := Some(0), "B" := Some(1)], map["x" := 0, "y" := 1], map[], map["r" := None],
          EMPTY, Device(None, map[], 1), false)
  }

  /** The id of A's session, reused under the label of B. */
  function Reused(swkType: string): (n: NewSession) {
    NewSession("r", "B", "x", [3], swkType, ALL_WELL, true)
  }

  /** B is left with a pointer to the session that gave way. */
  lemma ReusedIdLeavesStalePointer(cfg: Config, swkType: string)
    requires SwkTypes.LookupSwkType(swkType).Some?
    ensures Wired(TwoStms(swkType)) && PointersListed(TwoStms(swkType)) && Admitted(TwoStms(swkType), Reused(swkType))
    ensures !PointersListed(Created(cfg, TwoStms(swkType), Reused(swkType)))
  {
    hide SwkTypes.LookupSwkType;
    var st, n := TwoStms(swkType), Reused(swkType);
    assert GivesWay(st, n) == {"y"} && Renewed(st, n).name == "A";
    CreatedPointersListed(cfg, st, n);
  }

  /** Which keys go: as meant, those of the session that gives way; as written, none. */
  lemma GoingKeysAre(cfg: Config, st: State, n: NewSession)
    requires TablesKeyed(st)
    ensures cfg.cascade == AsWritten ==> GoingKeys(cfg, st, n) == {}
    ensures cfg.cascade == AsMeant ==>
              forall t :: t in GoingKeys(cfg, st, n) <==>
                t in st.keys && exists id :: id in GivesWay(st, n) && id in st.sessions && st.keys[t].session == st.sessions[id]
  {
    GoingKeysOf(cfg, st, n);
    forall session
      ensures cfg.cascade == AsWritten ==> RemovedWith(cfg.cascade, st.keys, session) == {}
      ensures cfg.cascade == AsMeant ==>
                forall t :: t in RemovedWith(cfg.cascade, st.keys, session) <==> t in st.keys && st.keys[t].session == session
    {
      RemovedAre(cfg.cascade, st, session);
    }
  }

  lemma RemovedAre(cascade: Cascade, st: State, session: Ptr)
    requires TablesKeyed(st)
    ensures cascade == AsWritten ==> RemovedWith(cascade, st.keys, session) == {}
    ensures cascade == AsMeant ==>
              forall t :: t in RemovedWith(cascade, st.keys, session) <==> t in st.keys && st.keys[t].session == session
  {
    forall t | t in st.keys && st.keys[t].session == session && cascade == AsMeant
      ensures t in RemovedWith(cascade, st.keys, session)
    {
      assert t == RemovalKey(cascade, st.keys[t].url);
    }
  }

  lemma EffectListed(st: State, n: NewSession, gone: set<TableKey>, r: State, q: Ptr)
    requires Wired(st) && n.stm in st.stms && TableEffect(st, n, gone, r)
    requires Listed(st, q)
    ensures Listed(r, q) <==> st.heap[q].id !in GivesWay(st, n)
  {
    EffectKeyed(st, n, gone, r);
  }

  /** With the removal that is meant: a key stays exactly when its session does not give way, and every key is bound
      to a session of the table again. */
  lemma CreatedBoundAsMeant(cfg: Config, st: State, n: NewSession)
    requires cfg.cascade == AsMeant
    requires Wired(st) && Bound(st) && n.stm in st.stms
    ensures var r := Created(cfg, st, n);
            && Bound(r)
            && (forall t :: t in r.keys <==> t in st.keys && st.heap[st.keys[t].session].id !in GivesWay(st, n))
            && (forall t :: t in r.keys ==> r.keys[t] == st.keys[t])
  {
    var r := Created(cfg, st, n);
    CreatedTables(cfg, st, n);
    GoingKeysAre(cfg, st, n);
    forall t | t in st.keys
      ensures t in GoingKeys(cfg, st, n) <==> st.heap[st.keys[t].session].id in GivesWay(st, n)
      ensures Listed(r, st.keys[t].session) <==> st.heap[st.keys[t].session].id !in GivesWay(st, n)
    {
      assert Listed(st, st.keys[t].session);
      EffectListed(st, n, GoingKeys(cfg, st, n), r, st.keys[t].session);
    }
  }

  /** None of the keys belongs to a session that gives way. */
  predicate NoKeyAffected(st: State, n: NewSession) {
    forall t :: t in st.keys ==> Deref(st, st.keys[t].session).id !in GivesWay(st, n)
  }

  lemma AsWrittenNoneGoes(cfg: Config, st: State, n: NewSession)
    requires cfg.cascade == AsWritten && TablesKeyed(st)
    ensures TableEffect(st, n, {}, Created(cfg, st, n))
  {
    CreatedTables(cfg, st, n);
    GoingKeysAre(cfg, st, n);
  }

  /** As written no key is ever removed, so no key is left behind exactly when none belonged to a session giving way. */
  lemma CreatedBoundAsWritten(cfg: Config, st: State, n: NewSession)
    requires cfg.cascade == AsWritten
    requires Wired(st) && Bound(st) && n.stm in st.stms
    ensures Created(cfg, st, n).keys == st.keys
    ensures Bound(Created(cfg, st, n)) <==> NoKeyAffected(st, n)
  {
    AsWrittenNoneGoes(cfg, st, n);
    assert Created(cfg, st, n).keys == st.keys;
    if NoKeyAffected(st, n) {
      EffectBoundKept(st, n, Created(cfg, st, n));
    } else {
      EffectBoundBroken(st, n, Created(cfg, st, n));
    }
  }

  lemma EffectBoundKept(st: State, n: NewSession, r: State)
    requires Wired(st) && Bound(st) && n.stm in st.stms && TableEffect(st, n, {}, r)
    requires NoKeyAffected(st, n)
    ensures Bound(r)
  {
    forall t | t in r.keys
      ensures Listed(r, r.keys[t].session)
    {
      assert Listed(st, st.keys[t].session);
      EffectListed(st, n, {}, r, st.keys[t].session);
    }
  }

  lemma EffectBoundBroken(st: State, n: NewSession, r: State)
    requires Wired(st) && Bound(st) && n.stm in st.stms && TableEffect(st, n, {}, r)
    requires !NoKeyAffected(st, n)
    ensures !Bound(r)
  {
    var t :| t in st.keys && Deref(st, st.keys[t].session).id in GivesWay(st, n);
    assert Listed(st, st.keys[t].session);
    EffectListed(st, n, {}, r, st.keys[t].session);
    assert t in r.keys && r.keys[t] == st.keys[t];
  }
}
