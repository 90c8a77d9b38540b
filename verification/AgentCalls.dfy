/** The callbacks, each in terms of its arguments and of the state at entry:
    key-agent/src/session.cpp:59-118, key-agent/src/key.cpp:41-89 and key-agent/stm/stm_init.cpp:132-210. */
module AgentCalls {
  import opened Strings
  import opened Cache
  import opened Token
  import opened AgentModel
  import opened AgentLaws
  import opened AgentCache
  import opened AgentRuns
  import opened AgentGuarantees
  import SwkTypes
  import KeyTransfer

  // ----- Taking a challenge -----

  /** The callback succeeds exactly when the STM and the request are known and the token takes the challenge. It touches
      nothing but the token library; there the new quote is about the public half of a new pair and carries the nonce, and
      the wrapping key stays. */
  lemma ChallengeCallExact(cfg: Config, st: State, request: string, stm: string, nonce: Bytes, luck: ChallengeLuck)
    requires DeviceSound(st.device)
    ensures var o := Call(cfg, st, OnChallenge(request, stm, nonce, luck));
            && (o.ok <==>
                  && stm == "SGX" && "SGX" in st.stms
                  && request in st.requests && st.requests[request].Some?
                  && (if st.device.token.Some? then st.device.token.value.session else luck.setUp == CachedToken(true))
                  && luck.ecdsa && luck.keyPair && luck.quoteSize && luck.quote)
            && o.st == st.(device := o.st.device)
            && Wrapping(o.st.device) == Wrapping(st.device)
            && (o.ok ==>
                  && o.st.device.next == st.device.next + 2
                  && ChallengeKey(o.st.device) == Some(PrivateHalf(st.device.next))
                  && o.st.device.token.value.challenge == Some(Quote(PublicHalf(st.device.next), nonce)))
  {
    hide GetChallenge;
    if stm in st.stms && request in st.requests {
      ChallengeExact(st.device, stm, st.requests[request], nonce, luck);
      ChallengeMakesPair(st.device, stm, st.requests[request], nonce, luck);
      ChallengeLeavesWrapping(st.device, stm, st.requests[request], nonce, luck);
    }
  }

  /** A challenge for a known STM and request sets up a missing token with the PIN of the very URI behind the request; a
      token that is there keeps PIN and session, and so does the lack of one under any other request. */
  lemma ChallengeCallSetsUp(cfg: Config, st: State, request: string, stm: string, nonce: Bytes, luck: ChallengeLuck)
    ensures var t, t' := st.device.token, Call(cfg, st, OnChallenge(request, stm, nonce, luck)).st.device.token;
            var reached := stm in st.stms && request in st.requests && st.requests[request].Some?;
            && (t.Some? ==> t'.Some? && t'.value.pin == t.value.pin && t'.value.session == t.value.session)
            && (t.None? ==>
                  && (t'.Some? <==> reached && luck.setUp.CachedToken?)
                  && (t'.Some? ==> t'.value.pin == st.requests[request].value.pin
                                   && t'.value.session == luck.setUp.hasSession))
  {
    hide GetChallenge;
    if stm in st.stms && request in st.requests {
      ChallengeSetsUp(st.device, stm, st.requests[request], nonce, luck);
    }
  }

  // ----- Setting a session -----

  /** Setting a session directly moves the STM's pointer exactly when the STM and the request are known, whatever the token
      then says, and succeeds exactly when the token unwraps the session's swk under the current challenge key. */
  lemma SetSessionCallExact(cfg: Config, st: State, request: string, p: Ptr, unwrap: bool)
    requires DeviceSound(st.device) && p in st.heap
    ensures var o := Call(cfg, st, OnSetSession(request, p, unwrap));
            var stm := st.heap[p].name;
            var asked := stm in st.stms && request in st.requests;
            && o.st == st.(stms := if asked then st.stms[stm := Some(p)] else st.stms, device := o.st.device)
            && (o.ok <==> asked && stm == "SGX" && st.requests[request].Some? && unwrap && ChallengeKey(st.device).Some?)
            && (o.ok ==> Wrapping(o.st.device) == Some(WrappingKey(ChallengeKey(st.device).value, st.heap[p].swk)))
            && (!o.ok ==> o.st.device == st.device)
  {
    hide SetWrappingKey;
    var stm := st.heap[p].name;
    if stm in st.stms && request in st.requests {
      WrappingKeyIsSet(st.device, stm, st.requests[request], st.heap[p].swk, unwrap);
    }
  }

  // ----- Creating a session -----

  /** Creating a session succeeds exactly when its type and its STM are known and the STM, which is that of the session
      already known under the id if there is one, is the SGX one and its token unwraps the swk. */
  lemma SessionCallExact(cfg: Config, st: State, n: NewSession)
    requires Wired(st) && DeviceSound(st.device)
    ensures CreateSession(cfg, st, n).ok <==>
              && SwkTypes.LookupSwkType(n.swkType).Some? && n.stm in st.stms
              && (if n.id in st.sessions then st.heap[st.sessions[n.id]].name else n.stm) == "SGX"
              && n.request in st.requests && st.requests[n.request].Some? && n.unwrap && ChallengeKey(st.device).Some?
  {
    hide SwkTypes.LookupSwkType, SetWrappingKey, DeviceSound;
    CreateSessionEffect(cfg, st, n);
    if n.stm in st.stms {
      RenewedNames(st, n);
      if n.request in st.requests {
        WrappingKeyIsSet(st.device, Renewed(st, n).name, st.requests[n.request], n.swk, n.unwrap);
      }
    }
  }

  /** The STM points to a session with this id. */
  predicate IdOfStm(st: State, stm: string, id: string) {
    stm in st.stms && st.stms[stm].Some? && st.stms[stm].value in st.heap && st.heap[st.stms[stm].value].id == id
  }

  /** Everything the call does to the tables of sessions and STMs, whether it succeeds or not. Arguments with an unknown type
      or STM change nothing. Otherwise the session stands under its id with the swk that was given: in the structure that
      was known under the id, which keeps its STM and its type, or else in a new one with the STM and the type that were
      given. Of the other ids only that of the STM's session before goes. */
  lemma SessionCallTables(cfg: Config, st: State, n: NewSession)
    requires Wired(st)
    ensures SwkTypes.LookupSwkType(n.swkType).None? || n.stm !in st.stms ==> CreateSession(cfg, st, n) == Outcome(st, false)
    ensures SwkTypes.LookupSwkType(n.swkType).Some? && n.stm in st.stms ==>
              var r := CreateSession(cfg, st, n).st;
              var known := n.id in st.sessions;
              var p := if known then st.sessions[n.id] else st.next;
              && r.heap.Keys == st.heap.Keys + {p}
              && (forall q :: q in st.heap && q != p ==> r.heap[q] == st.heap[q])
              && r.heap[p].(cacheId := 0) ==
                   (if known then Session(st.heap[p].name, n.id, st.heap[p].swkType, n.swk, 0)
                    else Session(n.stm, n.id, n.swkType, n.swk, 0))
              && r.next == (if known then st.next else st.next + 1)
              && (forall id :: id in r.sessions <==> id == n.id || (id in st.sessions && !IdOfStm(st, n.stm, id)))
              && (forall id :: id in r.sessions ==> r.sessions[id] == if id == n.id then p else st.sessions[id])
              && r.stms == (if n.request in st.requests then st.stms[r.heap[p].name := Some(p)] else st.stms)
              && r.requests == st.requests && r.locked == st.locked
  {
    hide SwkTypes.LookupSwkType, CachedAs, WrappedFor, GoingKeys, CreateSession;
    CreateSessionEffect(cfg, st, n);
    if n.stm in st.stms {
      CreatedTables(cfg, st, n);
      RenewedNames(st, n);
    }
  }

  /** The SGX session's swk is unwrapped under the challenge key into one new object, which becomes the wrapping key; a call
      that fails leaves the token alone. */
  lemma SessionCallWraps(cfg: Config, st: State, n: NewSession)
    requires Wired(st) && DeviceSound(st.device)
    ensures var o := CreateSession(cfg, st, n);
            && (!o.ok ==> o.st.device == st.device)
            && (o.ok ==>
                  && ChallengeKey(st.device).Some?
                  && o.st.device == Device(Some(st.device.token.value.(wrapping := st.device.next)),
                                           st.device.objects[st.device.next := WrappingKey(ChallengeKey(st.device).value, n.swk)],
                                           st.device.next + 1))
  {
    hide SwkTypes.LookupSwkType, SetWrappingKey, CacheSession, CachedAs, GivesWay, GoingKeys, DeviceSound, CreateSession;
    CreateSessionEffect(cfg, st, n);
    if n.stm in st.stms && n.request in st.requests {
      RenewedNames(st, n);
      WrappingKeyIsSet(st.device, Renewed(st, n).name, st.requests[n.request], n.swk, n.unwrap);
    }
  }

  /** The rows of the three key tables after the call: those of the keys that went are gone, with everything under their ids,
      and all others are there. */
  lemma SessionCallRows(cfg: Config, st: State, n: NewSession)
    requires Wired(st) && Sound(st.db) && KeysCached(st)
    ensures var r := CreateSession(cfg, st, n).st;
            && (forall u :: u in r.db.keys <==> u in st.db.keys && !(QuarkOf(u) in st.keys && QuarkOf(u) !in r.keys))
            && (forall u :: u in r.db.keys ==> r.db.keys[u] == st.db.keys[u])
            && (forall id: int, name: string :: ReadAttr(r.db, id, name) ==
                  if IdGone(st, r, id) then None else ReadAttr(st.db, id, name))
            && (forall a :: a in r.db.policies <==> a in st.db.policies && !IdGone(st, r, a.keyId))
  {
    hide SwkTypes.LookupSwkType, SetWrappingKey, CreateSession, Sound, KeyStored, GivesWay;
    CreateSessionEffect(cfg, st, n);
    if Admitted(st, n) {
      var gone := GoingKeys(cfg, st, n);
      var ids := CacheIds(st.keys, gone);
      var r := CreateSession(cfg, st, n).st;
      SessionCachingSparesRows(cfg.cacheSessions, DeleteSet(st.db, ids), Renewed(st, n), n.luck);
      DeleteIsExact(st.db, ids);
      GoneKeys(cfg, st, n, r);
      forall u | u in st.db.keys
        ensures st.db.keys[u].id in ids <==> QuarkOf(u) in st.keys && QuarkOf(u) in gone
      {
        RowGoes(st, gone, u);
      }
      forall id
        ensures id in ids <==> IdGone(st, r, id)
      {
        assert id in ids <==> exists t :: t in st.keys && t in gone && st.keys[t].cacheId == id;
      }
    } else {
      assert forall id :: !IdGone(st, st, id);
    }
  }

  /** A key with this cache id left the table. */
  predicate IdGone(st: State, r: State, id: int) {
    exists t :: t in st.keys && t !in r.keys && st.keys[t].cacheId == id
  }

  lemma GoneKeys(cfg: Config, st: State, n: NewSession, r: State)
    requires r.keys == st.keys - GoingKeys(cfg, st, n)
    ensures forall t :: t in st.keys ==> (t in r.keys <==> t !in GoingKeys(cfg, st, n))
  {
  }

  lemma RowGoes(st: State, gone: set<TableKey>, u: string)
    requires Sound(st.db) && TablesKeyed(st) && KeysCached(st) && u in st.db.keys
    ensures st.db.keys[u].id in CacheIds(st.keys, gone) <==> QuarkOf(u) in st.keys && QuarkOf(u) in gone
  {
    if QuarkOf(u) in st.keys {
      assert KeyCached(st, st.keys[QuarkOf(u)]);
    }
    forall t | t in st.keys && st.keys[t].cacheId == st.db.keys[u].id
      ensures t == QuarkOf(u)
    {
      OneRowPerKey(st, t, u);
    }
  }

  lemma SessionCachingSparesRows(on: bool, db: Db, s: Session, luck: Luck)
    ensures var r := CacheSession(on, db, s.name, s.swk, s.id, s.swkType, luck).db;
            r.keys == db.keys && r.attributes == db.attributes && r.policies == db.policies
  {
  }

  // ----- Creating a key -----

  /** Creating a key under a URL that is in the table succeeds and leaves the entry as it is, but for a new cache id; under
      another URL it succeeds exactly when key data and a session id of the table are given, and the entry then is what was
      given, under that session. Nothing but this entry and the cache changes. */
  lemma KeyCallExact(cfg: Config, st: State, n: NewKey)
    ensures var o := CreateKey(cfg, st, n);
            var known := QuarkOf(n.url) in st.keys;
            && (o.ok <==> known || (n.attrs.Some? && "KEYDATA" in n.attrs.value
                                    && n.sessionId.Some? && n.sessionId.value in st.sessions))
            && o.st == st.(keys := o.st.keys, db := o.st.db)
            && (!o.ok ==> o.st == st)
            && (o.ok ==>
                  && QuarkOf(n.url) in o.st.keys
                  && o.st.keys == st.keys[QuarkOf(n.url) := o.st.keys[QuarkOf(n.url)]]
                  && o.st.keys[QuarkOf(n.url)].(cacheId := 0) ==
                       if known then st.keys[QuarkOf(n.url)].(cacheId := 0)
                       else Key(n.url, n.typ, st.sessions[n.sessionId.value], n.attrs.value, 0))
  {
    CreateKeyEffect(cfg, st, n);
  }

  // ----- Handing a key over -----

  /** What an STM is given with a key, in every state: the STM that the key's session names, the session which that STM has
      now, be it the key's own or not, with its type, the module data of the request, and the key's type and record. There is
      nothing to give exactly when the STM, its session or the request is missing or the record does not parse. */
  lemma HandOverExact(st: State, request: string, k: Key)
    requires PointersLive(st) && k.session in st.heap
    ensures var d := HandOver(st, request, k); var stm := st.heap[k.session].name;
            && (d.Some? <==>
                  && stm in st.stms && st.stms[stm].Some? && request in st.requests
                  && KeyTransfer.Covered(KeyData(k)) && KeyTransfer.Parse(KeyData(k)).Some?)
            && (d.Some? ==>
                  && d.value.stm == stm && Some(d.value.session) == st.stms[stm]
                  && d.value.swkType == SwkTypes.LookupSwkType(st.heap[d.value.session].swkType)
                  && d.value.data == st.requests[request] && d.value.typ == k.typ
                  && KeyTransfer.Parse(KeyData(k)) == Some(d.value.parts))
  {
    hide KeyTransfer.Parse, KeyTransfer.Covered, SwkTypes.LookupSwkType;
  }

  // ----- With caching off -----

  /** Without session caching a creation writes no session row, without key caching no key row: the object gets the next
      number of the counter for an id, and only rows of keys that leave the table go. */
  lemma CachingOffCalls(cfg: Config, st: State, n: NewSession, k: NewKey)
    requires PointersLive(st)
    ensures var r := CreateSession(cfg, st, n).st;
            !cfg.cacheSessions && Admitted(st, n) ==>
              && r.db == DeleteSet(st.db, CacheIds(st.keys, GoingKeys(cfg, st, n))).(fakeIds := st.db.fakeIds + 1)
              && r.heap[Target(st, n)].cacheId == st.db.fakeIds + 1
    ensures var r := CreateKey(cfg, st, k);
            !cfg.cacheKeys && r.ok ==>
              && r.st.db == st.db.(fakeIds := st.db.fakeIds + 1)
              && r.st.keys[QuarkOf(k.url)].cacheId == st.db.fakeIds + 1
  {
    hide SwkTypes.LookupSwkType, WrappedFor, CreateSession;
    CreateSessionEffect(cfg, st, n);
    CreateKeyEffect(cfg, st, k);
  }
}
