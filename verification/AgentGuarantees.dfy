/** What the invariants buy: the session behind a handed key, the wrapping key in the token, the cache, and where the code
    as written falls short of what is meant. */
module AgentGuarantees {
  import opened Strings
  import opened Cache
  import opened Token
  import opened AgentModel
  import opened AgentLaws
  import opened AgentCache
  import opened AgentRuns
  import opened AgentLoads
  import SwkTypes
  import KeyTransfer

  // ----- The cache along a run -----

  predicate SessionRowsWritten(st: State, e: Event) {
    e.Do? && e.callback.OnSession? && Admitted(st, e.callback.session) ==>
      e.callback.session.luck.insert && e.callback.session.luck.select
  }

  predicate KeyRowsWritten(st: State, e: Event) {
    e.Do? && e.callback.OnKey? && Accepted(st, e.callback.key) ==>
      && e.callback.key.luck.insert && e.callback.key.luck.select
      && (KeyAfter(st, e.callback.key).typ == RsaKey ==> e.callback.key.luck.attr)
  }

  predicate AllSessionRowsWritten(cfg: Config, st: State, es: seq<Event>)
    decreases |es|
  {
    es == [] || (SessionRowsWritten(st, es[0]) && AllSessionRowsWritten(cfg, Step(cfg, st, es[0]).st, es[1..]))
  }

  predicate AllKeyRowsWritten(cfg: Config, st: State, es: seq<Event>)
    decreases |es|
  {
    es == [] || (KeyRowsWritten(st, es[0]) && AllKeyRowsWritten(cfg, Step(cfg, st, es[0]).st, es[1..]))
  }

  /** Events other than the two creations change neither the tables that are cached nor the database. */
  lemma CacheIdle(cfg: Config, st: State, e: Event)
    requires !(e.Do? && (e.callback.OnSession? || e.callback.OnKey?))
    ensures var r := Step(cfg, st, e).st;
            r.db == st.db && r.heap == st.heap && r.sessions == st.sessions && r.keys == st.keys
  {
    hide GetChallenge, SetWrappingKey, LoadKey, HandOver;
  }

  lemma StepKeepsSessionsCached(cfg: Config, st: State, e: Event)
    requires cfg.cacheSessions && Inv(cfg, st) && SessionsCached(st) && SessionRowsWritten(st, e)
    ensures SessionsCached(Step(cfg, st, e).st)
  {
    if e.Do? && e.callback.OnSession? {
      SessionCacheExact(cfg, st, e.callback.session);
    } else if e.Do? && e.callback.OnKey? {
      CreateKeyEffect(cfg, st, e.callback.key);
      CreateKeySound(cfg, st, e.callback.key);
    } else {
      CacheIdle(cfg, st, e);
    }
  }

  /** With session caching on and its inserts succeeding, every session of the table has the row of its STM, with equal
      fields and its own id, over any sequence of creations, updates and replacements. */
  lemma {:induction false} RunKeepsSessionsCached(cfg: Config, st: State, es: seq<Event>)
    requires cfg.cacheSessions && Inv(cfg, st) && SessionsCached(st)
    requires TameRun(cfg, st, es) && AllSessionRowsWritten(cfg, st, es)
    ensures SessionsCached(Run(cfg, st, es))
    decreases |es|
  {
    if es != [] {
      StepKeepsInv(cfg, st, es[0]);
      StepKeepsSessionsCached(cfg, st, es[0]);
      RunKeepsSessionsCached(cfg, Step(cfg, st, es[0]).st, es[1..]);
    }
  }

  lemma StepKeepsKeysCached(cfg: Config, st: State, e: Event)
    requires cfg.cacheKeys && Wired(st) && Sound(st.db) && KeysCached(st) && KeyRowsWritten(st, e)
    ensures KeysCached(Step(cfg, st, e).st) && Sound(Step(cfg, st, e).st.db)
  {
    if e.Do? && e.callback.OnSession? {
      CreateSessionEffect(cfg, st, e.callback.session);
      if Admitted(st, e.callback.session) {
        CreatedKeysCached(cfg, st, e.callback.session);
        CreatedSound(cfg, st, e.callback.session);
      }
    } else if e.Do? && e.callback.OnKey? {
      KeyCacheExact(cfg, st, e.callback.key);
      CreateKeySound(cfg, st, e.callback.key);
    } else {
      CacheIdle(cfg, st, e);
    }
  }

  /** With key caching on and its inserts succeeding, every key of the table has the row of its URL under its own id, and
      the bytes of an RSA key can be read back by that id, along any run at all; sessions may fail to be cached meanwhile. */
  lemma {:induction false} RunKeepsKeysCached(cfg: Config, st: State, es: seq<Event>)
    requires cfg.cacheKeys && Wired(st) && Sound(st.db) && KeysCached(st)
    requires AllKeyRowsWritten(cfg, st, es)
    ensures KeysCached(Run(cfg, st, es))
    decreases |es|
  {
    if es != [] {
      StepKeepsWired(cfg, st, es[0]);
      StepKeepsKeysCached(cfg, st, es[0]);
      RunKeepsKeysCached(cfg, Step(cfg, st, es[0]).st, es[1..]);
    }
  }

  // ----- The wrapping key along a run -----

  /** The token's wrapping key is the unwrapping of the current swk of the SGX STM's session. */
  predicate WrapMatches(st: State) {
    StmSession(st, SGX).Some? ==>
      && Wrapping(st.device).Some?
      && Wrapping(st.device).value.WrappingKey?
      && Wrapping(st.device).value.under.PrivateHalf?
      && Wrapping(st.device).value.wrapped == Deref(st, StmSession(st, SGX).value).swk
  }

  /** The event reaches the point where an STM's session pointer is moved and the STM is asked to take the swk. */
  predicate Attempts(st: State, e: Event) {
    && e.Do?
    && match e.callback {
         case OnSession(n) => Admitted(st, n) && Renewed(st, n).name in st.stms && n.request in st.requests
         case OnSetSession(request, p, _) => p in st.heap && Deref(st, p).name in st.stms && request in st.requests
         case _ => false
       }
  }

  predicate AttemptsSucceed(cfg: Config, st: State, es: seq<Event>)
    decreases |es|
  {
    es == []
    || ((Attempts(st, es[0]) ==> Step(cfg, st, es[0]).ok) && AttemptsSucceed(cfg, Step(cfg, st, es[0]).st, es[1..]))
  }

  /** The wrapping key of r is the unwrapping of the SGX session's swk under m. */
  predicate WrappedUnder(r: State, m: Option<Material>) {
    && StmSession(r, SGX).Some? && m.Some? && m.value.PrivateHalf?
    && Wrapping(r.device) == Some(WrappingKey(m.value, Deref(r, StmSession(r, SGX).value).swk))
  }

  lemma CreatedWrapped(cfg: Config, st: State, n: NewSession)
    requires Wired(st) && DeviceSound(st.device) && n.stm in st.stms && n.request in st.requests
    requires WrappedFor(st, n).ok
    ensures WrappedUnder(Created(cfg, st, n), ChallengeKey(st.device))
  {
    var s := Renewed(st, n);
    CreatedTables(cfg, st, n);
    RenewedNames(st, n);
    WrappingKeyIsSet(st.device, s.name, st.requests[n.request], s.swk, n.unwrap);
  }

  lemma SetWrapped(st: State, request: string, p: Ptr, unwrap: bool)
    requires Wired(st) && DeviceSound(st.device) && p in st.heap
    requires SetSession(st, request, p, unwrap).ok
    ensures WrappedUnder(SetSession(st, request, p, unwrap).st, ChallengeKey(st.device))
  {
    var s := Deref(st, p);
    WrappingKeyIsSet(st.device, s.name, st.requests[request], s.swk, unwrap);
  }

  /** A successful attempt ends with the swk unwrapped under the challenge private key that is current at that moment. */
  lemma AttemptWraps(cfg: Config, st: State, e: Event)
    requires Inv(cfg, st) && Attempts(st, e) && Step(cfg, st, e).ok
    ensures WrappedUnder(Step(cfg, st, e).st, ChallengeKey(st.device))
  {
    match e.callback
    case OnSession(n) =>
      CreateSessionEffect(cfg, st, n);
      CreatedWrapped(cfg, st, n);
    case OnSetSession(request, p, unwrap) =>
      SetWrapped(st, request, p, unwrap);
  }

  /** What the wrapping key is compared with. */
  predicate SameWrap(st: State, r: State) {
    && Wrapping(r.device) == Wrapping(st.device)
    && StmSession(r, SGX) == StmSession(st, SGX)
    && (StmSession(st, SGX).Some? ==> Deref(r, StmSession(st, SGX).value).swk == Deref(st, StmSession(st, SGX).value).swk)
  }

  lemma QuietSession(cfg: Config, st: State, n: NewSession)
    requires Inv(cfg, st) && n.request in st.requests
    requires !Attempts(st, Do(OnSession(n)))
    ensures CreateSession(cfg, st, n).st == st
  {
    CreateSessionEffect(cfg, st, n);
    if Admitted(st, n) {
      RenewedNames(st, n);
    }
  }

  lemma QuietChallenge(st: State, request: string, stm: string, nonce: Bytes, luck: ChallengeLuck)
    requires DeviceSound(st.device)
    ensures SameWrap(st, TakeChallenge(st, request, stm, nonce, luck).st)
  {
    if stm in st.stms && request in st.requests {
      ChallengeLeavesWrapping(st.device, stm, st.requests[request], nonce, luck);
    }
  }

  lemma QuietHand(cfg: Config, st: State, request: string, url: string, unwrap: bool)
    requires DeviceSound(st.device)
    ensures SameWrap(st, Step(cfg, st, Hand(request, url, unwrap)).st)
  {
    if QuarkOf(url) in st.keys {
      LoadToStmDevice(st, request, st.keys[QuarkOf(url)], unwrap);
    }
  }

  lemma QuietKey(cfg: Config, st: State, n: NewKey)
    ensures SameWrap(st, CreateKey(cfg, st, n).st)
  {
    CreateKeyEffect(cfg, st, n);
  }

  /** Every other event leaves wrapping key, session pointer and swk alone: failed checks, challenges that succeed or fail,
      key creations, key loads. */
  lemma QuietStep(cfg: Config, st: State, e: Event)
    requires Inv(cfg, st) && Tame(st, e) && !Attempts(st, e)
    ensures SameWrap(st, Step(cfg, st, e).st)
  {
    match e
    case Open(_, _) =>
    case Close(_) =>
    case Hand(request, url, unwrap) => QuietHand(cfg, st, request, url, unwrap);
    case Do(c) =>
      match c {
        case OnSession(n) => QuietSession(cfg, st, n);
        case OnKey(n) => QuietKey(cfg, st, n);
        case OnChallenge(request, stm, nonce, luck) => QuietChallenge(st, request, stm, nonce, luck);
        case OnSetSession(_, _, _) =>
      }
  }

  lemma StepKeepsWrap(cfg: Config, st: State, e: Event)
    requires Inv(cfg, st) && Tame(st, e) && WrapMatches(st) && (Attempts(st, e) ==> Step(cfg, st, e).ok)
    ensures WrapMatches(Step(cfg, st, e).st)
  {
    if Attempts(st, e) {
      AttemptWraps(cfg, st, e);
    } else {
      QuietStep(cfg, st, e);
    }
  }

  /** While every attempt to set a session succeeds, the token's wrapping key is the unwrapping of the current session's
      swk, however challenges, failed posts, swk updates and replacements interleave. */
  lemma {:induction false} RunKeepsWrap(cfg: Config, st: State, es: seq<Event>)
    requires Inv(cfg, st) && WrapMatches(st) && TameRun(cfg, st, es) && AttemptsSucceed(cfg, st, es)
    ensures WrapMatches(Run(cfg, st, es))
    decreases |es|
  {
    if es != [] {
      StepKeepsInv(cfg, st, es[0]);
      StepKeepsWrap(cfg, st, es[0]);
      RunKeepsWrap(cfg, Step(cfg, st, es[0]).st, es[1..]);
    }
  }

  /** The challenge private key that was current when the last attempt of the run was made. */
  function KeyAtLastAttempt(cfg: Config, st: State, es: seq<Event>, before: Option<Material>): (m: Option<Material>)
    decreases |es|
  {
    if es == [] then before
    else KeyAtLastAttempt(cfg, Step(cfg, st, es[0]).st, es[1..], if Attempts(st, es[0]) then ChallengeKey(st.device) else before)
  }

  lemma SameWrapKeeps(st: State, r: State, m: Option<Material>)
    requires SameWrap(st, r) && WrappedUnder(st, m)
    ensures WrappedUnder(r, m)
  {
  }

  /** And the private key it was unwrapped under is the one that was current at the last attempt, also when further
      challenges have replaced that key since. */
  lemma {:induction false} WrapHistory(cfg: Config, st: State, es: seq<Event>, before: Option<Material>)
    requires Inv(cfg, st) && TameRun(cfg, st, es) && AttemptsSucceed(cfg, st, es)
    requires StmSession(st, SGX).Some? ==> WrappedUnder(st, before)
    ensures StmSession(Run(cfg, st, es), SGX).Some? ==>
              WrappedUnder(Run(cfg, st, es), KeyAtLastAttempt(cfg, st, es, before))
    decreases |es|
  {
    if es != [] {
      var r := Step(cfg, st, es[0]).st;
      StepKeepsInv(cfg, st, es[0]);
      if Attempts(st, es[0]) {
        AttemptWraps(cfg, st, es[0]);
        WrapHistory(cfg, r, es[1..], ChallengeKey(st.device));
      } else {
        QuietStep(cfg, st, es[0]);
        if StmSession(st, SGX).Some? {
          SameWrapKeeps(st, r, before);
        }
        WrapHistory(cfg, r, es[1..], before);
      }
    }
  }

  /** An attempt that the STM refuses still moves the session pointer: the wrapping key then matches only by accident, when
      it already was the unwrapping of the same bytes. */
  lemma RefusedWrapExact(cfg: Config, st: State, n: NewSession)
    requires Inv(cfg, st) && Admitted(st, n) && n.request in st.requests
    requires Renewed(st, n).name == SGX && !CreateSession(cfg, st, n).ok
    ensures WrapMatches(CreateSession(cfg, st, n).st) <==>
              && Wrapping(st.device).Some? && Wrapping(st.device).value.WrappingKey?
              && Wrapping(st.device).value.under.PrivateHalf? && Wrapping(st.device).value.wrapped == n.swk
  {
    CreateSessionEffect(cfg, st, n);
    CreatedTables(cfg, st, n);
    RenewedNames(st, n);
    WrappingKeyIsSet(st.device, SGX, st.requests[n.request], n.swk, n.unwrap);
  }

  // ----- The session behind a handed key -----

  /** When a key of a listed session is handed to an STM, the STM's session that supplies the wrapping key type is the
      session the key was created under. */
  lemma HandedUnderOwnSession(cfg: Config, st: State, request: string, t: TableKey)
    requires Inv(cfg, st) && TypesKnown(st) && t in st.keys && Listed(st, st.keys[t].session)
    requires HandOver(st, request, st.keys[t]).Some?
    ensures var d := HandOver(st, request, st.keys[t]).value; var s := st.heap[st.keys[t].session];
            && d.session == st.keys[t].session
            && d.stm == s.name
            && d.swkType == SwkTypes.LookupSwkType(s.swkType) && d.swkType.Some?
            && d.typ == st.keys[t].typ
            && KeyTransfer.Parse(KeyData(st.keys[t])) == Some(d.parts)
  {
  }

  /** A key whose session has left the table is handed over under another session, unless the STM's pointer is stale too. */
  lemma StaleKeyIsHandedElsewhere(cfg: Config, st: State, request: string, t: TableKey)
    requires Inv(cfg, st) && PointersListed(st) && t in st.keys && !Listed(st, st.keys[t].session)
    requires HandOver(st, request, st.keys[t]).Some?
    ensures HandOver(st, request, st.keys[t]).value.session != st.keys[t].session
  {
    var stm := Deref(st, st.keys[t].session).name;
    assert Listed(st, st.stms[stm].value);
  }

  /** End to end: after any tame run in which every attempt succeeded, a key that an STM takes is in the token as the
      unwrapping of its own transferred bytes, under the unwrapping of the swk of the very session it was created under,
      under the private half of a challenge pair. With the meant removal this goes for every key; as written, for every
      key whose session is still in the table. */
  lemma EndToEnd(cfg: Config, start: State, es: seq<Event>, request: string, url: string, unwrap: bool)
    requires Fresh(start) && TameRun(cfg, start, es) && AttemptsSucceed(cfg, start, es)
    requires var st := Run(cfg, start, es);
             && QuarkOf(url) in st.keys && LoadToStm(st, request, st.keys[QuarkOf(url)], unwrap).ok
             && (cfg.cascade == AsMeant || Listed(st, st.keys[QuarkOf(url)].session))
    ensures var st := Run(cfg, start, es);
            var k := st.keys[QuarkOf(url)];
            var m := KeyAtLastAttempt(cfg, start, es, None);
            && Listed(st, k.session) && m.Some? && m.value.PrivateHalf?
            && KeyTransfer.Covered(KeyData(k)) && KeyTransfer.Parse(KeyData(k)).Some?
            && LoadToStm(st, request, k, unwrap).st.device.objects
               == st.device.objects[st.device.next :=
                    ApplicationKey(WrappingKey(m.value, st.heap[k.session].swk), KeyTransfer.Parse(KeyData(k)).value, k.typ)]
  {
    var st := Run(cfg, start, es);
    FreshInv(cfg, start);
    RunKeepsInv(cfg, start, es);
    WrapHistory(cfg, start, es, None);
    KeyTaken(cfg, st, request, QuarkOf(url), unwrap, KeyAtLastAttempt(cfg, start, es, None));
  }

  lemma KeyTaken(cfg: Config, st: State, request: string, t: TableKey, unwrap: bool, m: Option<Material>)
    requires Inv(cfg, st) && t in st.keys && Listed(st, st.keys[t].session)
    requires LoadToStm(st, request, st.keys[t], unwrap).ok
    requires StmSession(st, SGX).Some? ==> WrappedUnder(st, m)
    ensures var k := st.keys[t];
            && m.Some? && m.value.PrivateHalf?
            && KeyTransfer.Covered(KeyData(k)) && KeyTransfer.Parse(KeyData(k)).Some?
            && LoadToStm(st, request, k, unwrap).st.device.objects
               == st.device.objects[st.device.next :=
                    ApplicationKey(WrappingKey(m.value, st.heap[k.session].swk), KeyTransfer.Parse(KeyData(k)).value, k.typ)]
  {
    var d := HandOver(st, request, st.keys[t]).value;
    LoadedUnderWrapping(st.device, d.stm, d.data, d.parts, d.typ, unwrap);
    assert d.stm == SGX && d.session == st.keys[t].session;
  }

  /** What a caller can see of a key and its request: the STM is the SGX one, the record parses with an iv, the type is that
      of the URI, and the unwrap call succeeds. */
  predicate Fits(st: State, request: string, k: Key, unwrap: bool) {
    && Deref(st, k.session).name == SGX && unwrap
    && request in st.requests && st.requests[request].Some?
    && KeyTransfer.Covered(KeyData(k)) && KeyTransfer.Parse(KeyData(k)).Some?
    && KeyTransfer.Parse(KeyData(k)).value.iv.Some?
    && k.typ != InvalidKey && st.requests[request].value.isPrivate == (k.typ == RsaKey)
  }

  /** Exactly when an STM takes a key of a listed session, provided that the wrapping key matches. */
  lemma TakenExactly(cfg: Config, st: State, request: string, t: TableKey, unwrap: bool)
    requires Inv(cfg, st) && WrapMatches(st) && t in st.keys && Listed(st, st.keys[t].session)
    ensures LoadToStm(st, request, st.keys[t], unwrap).ok <==> Fits(st, request, st.keys[t], unwrap)
  {
    TakeableExact(st, request, st.keys[t], unwrap);
    assert StmSession(st, Deref(st, st.keys[t].session).name) == Some(st.keys[t].session);
  }

  // ----- The removal as written -----

  /** No session gives way that still has keys. A caller can check this before it creates a session. */
  predicate ReplacesNoKeys(st: State, e: Event) {
    e.Do? && e.callback.OnSession? && Admitted(st, e.callback.session) ==> NoKeyAffected(st, e.callback.session)
  }

  lemma OtherStepsKeepBound(cfg: Config, st: State, e: Event)
    requires Inv(cfg, st) && Bound(st) && !(e.Do? && e.callback.OnSession?)
    ensures Bound(Step(cfg, st, e).st)
  {
    if e.Do? && e.callback.OnKey? {
      CreateKeyBound(cfg, st, e.callback.key);
    } else {
      CacheIdle(cfg, st, e);
    }
  }

  /** As written, one event keeps every key bound to a session of the table exactly when no session with keys gives way. */
  lemma StepBoundAsWritten(cfg: Config, st: State, e: Event)
    requires cfg.cascade == AsWritten && Inv(cfg, st) && Bound(st)
    ensures Bound(Step(cfg, st, e).st) <==> ReplacesNoKeys(st, e)
  {
    if e.Do? && e.callback.OnSession? {
      CreateSessionEffect(cfg, st, e.callback.session);
      if Admitted(st, e.callback.session) {
        CreatedBoundAsWritten(cfg, st, e.callback.session);
      }
    } else {
      OtherStepsKeepBound(cfg, st, e);
    }
  }

  predicate NeverReplacesKeys(cfg: Config, st: State, es: seq<Event>)
    decreases |es|
  {
    es == [] || (ReplacesNoKeys(st, es[0]) && NeverReplacesKeys(cfg, Step(cfg, st, es[0]).st, es[1..]))
  }

  /** Every state of the run has all its keys bound. */
  predicate BoundAlong(cfg: Config, st: State, es: seq<Event>)
    decreases |es|
  {
    Bound(st) && (es == [] || BoundAlong(cfg, Step(cfg, st, es[0]).st, es[1..]))
  }

  /** As written, no key ever outlives its session in a run exactly when no session with keys ever gives way in it. */
  lemma {:induction false} BoundAsWrittenExact(cfg: Config, st: State, es: seq<Event>)
    requires cfg.cascade == AsWritten && Inv(cfg, st) && Bound(st) && TameRun(cfg, st, es)
    ensures BoundAlong(cfg, st, es) <==> NeverReplacesKeys(cfg, st, es)
    decreases |es|
  {
    if es != [] {
      var r := Step(cfg, st, es[0]).st;
      StepKeepsInv(cfg, st, es[0]);
      StepBoundAsWritten(cfg, st, es[0]);
      if Bound(r) {
        BoundAsWrittenExact(cfg, r, es[1..]);
      }
    }
  }

  // ----- The same agent, two removals -----

  /** One STM, nothing else but the requests in flight. */
  function StartWith(requests: map<string, Option<UriData>>, locked: bool): (st: State) {
    State(map[], 0, map["SGX" := None], map[], map[], requests,
          Db(map[], 0, map[], 0, map[], map[], 0), Device(None, map[], 1), locked)
  }

  const START := StartWith(map["r" := Some(UriData(true, "1234"))], false)

  function Making(request: string, id: string, swk: Bytes, swkType: string): (n: NewSession) {
    NewSession(request, "SGX", id, swk, swkType, ALL_WELL, false)
  }

  const KEY := NewKey("KMS:k", RsaKey, Some(map[KEYDATA := []]), Some("a"), ALL_WELL)

  function Replacement(swkType: string): (es: seq<Event>) {
    [Do(OnSession(Making("r", "a", [1], swkType))), Do(OnKey(KEY)), Do(OnSession(Making("r", "b", [2], swkType)))]
  }

  lemma StartInv(cfg: Config, requests: map<string, Option<UriData>>, locked: bool)
    ensures Inv(cfg, StartWith(requests, locked)) && Bound(StartWith(requests, locked))
  {
  }

  predicate OneSession(st: State) {
    && st.sessions == map["a" := 0]
    && 0 in st.heap && st.heap[0].id == "a" && StmSession(st, "SGX") == Some(0)
  }

  lemma FirstSession(cfg: Config, requests: map<string, Option<UriData>>, locked: bool, request: string, swkType: string)
    requires request in requests && SwkTypes.LookupSwkType(swkType).Some?
    ensures var r := CreateSession(cfg, StartWith(requests, locked), Making(request, "a", [1], swkType)).st;
            OneSession(r) && r.keys == map[] && r.requests == requests
  {
    var st, n := StartWith(requests, locked), Making(request, "a", [1], swkType);
    StartInv(cfg, requests, locked);
    CreateSessionEffect(cfg, st, n);
    FirstSessionTables(cfg, st, n);
  }

  lemma FirstSessionTables(cfg: Config, st: State, n: NewSession)
    requires st == StartWith(st.requests, st.locked) && n.stm == "SGX" && n.id == "a" && n.request in st.requests
    ensures OneSession(Created(cfg, st, n)) && Created(cfg, st, n).keys == map[]
  {
    CreatedTables(cfg, st, n);
    assert GivesWay(st, n) == {};
    assert st.sessions - {} == map[];
  }

  lemma FirstKey(cfg: Config, st: State)
    requires OneSession(st) && st.keys == map[]
    ensures var r := CreateKey(cfg, st, KEY).st;
            && OneSession(r) && r.requests == st.requests
            && QuarkOf("KMS:k") in r.keys && r.keys[QuarkOf("KMS:k")].session == 0
            && KeyData(r.keys[QuarkOf("KMS:k")]) == []
  {
    CreateKeyEffect(cfg, st, KEY);
  }

  lemma SessionThenKey(cfg: Config, swkType: string)
    requires SwkTypes.LookupSwkType(swkType).Some?
    ensures var first := CreateSession(cfg, START, Making("r", "a", [1], swkType)).st;
            var r := CreateKey(cfg, first, KEY).st;
            && Inv(cfg, r) && Bound(r) && OneSession(r) && "r" in r.requests
            && QuarkOf("KMS:k") in r.keys && r.keys[QuarkOf("KMS:k")].session == 0
  {
    hide Inv, CreateSession, CreateKey, SwkTypes.LookupSwkType;
    var n := Making("r", "a", [1], swkType);
    var first := CreateSession(cfg, START, n).st;
    StartInv(cfg, START.requests, false);
    FirstSession(cfg, START.requests, false, "r", swkType);
    CreateSessionInv(cfg, START, n);
    FirstKey(cfg, first);
    CreateKeyInv(cfg, first, KEY);
    InvIsWired(cfg, first);
    CreateKeyBound(cfg, first, KEY);
  }

  lemma InvIsWired(cfg: Config, st: State)
    requires Inv(cfg, st)
    ensures Wired(st)
  {
  }

  /** A session, a key under it, a second session for the same STM: as written the key outlives its session, with the
      meant removal it is gone. */
  lemma KeyOutlivesItsSession(cfg: Config, swkType: string)
    requires SwkTypes.LookupSwkType(swkType).Some?
    ensures var r := Run(cfg, START, Replacement(swkType));
            && (cfg.cascade == AsWritten ==> QuarkOf("KMS:k") in r.keys && !Bound(r))
            && (cfg.cascade == AsMeant ==> QuarkOf("KMS:k") !in r.keys && Bound(r))
  {
    hide Inv, Bound, CreateSession, CreateKey, Run, OneSession, SwkTypes.LookupSwkType;
    SessionThenKey(cfg, swkType);
    SecondSession(cfg, CreateKey(cfg, CreateSession(cfg, START, Making("r", "a", [1], swkType)).st, KEY).st, swkType);
    ThreeSteps(cfg, START, Replacement(swkType));
  }

  /** One such run. */
  lemma KeyOutlivesItsSessionExample()
    ensures !Bound(Run(Config(AsWritten, true, true), START, Replacement("AES256-GCM")))
  {
    SwkTypes.GcmIsKnown();
    KeyOutlivesItsSession(Config(AsWritten, true, true), "AES256-GCM");
  }

  lemma ThreeSteps(cfg: Config, st: State, es: seq<Event>)
    requires |es| == 3
    ensures Run(cfg, st, es) == Step(cfg, Step(cfg, Step(cfg, st, es[0]).st, es[1]).st, es[2]).st
  {
    RunOne(cfg, st, es[0]);
    RunOne(cfg, Step(cfg, st, es[0]).st, es[1]);
    RunOne(cfg, Step(cfg, Step(cfg, st, es[0]).st, es[1]).st, es[2]);
    RunConcat(cfg, st, [es[0]], [es[1]]);
    RunConcat(cfg, st, [es[0]] + [es[1]], [es[2]]);
    assert es == [es[0]] + [es[1]] + [es[2]];
  }

  lemma SecondSession(cfg: Config, st: State, swkType: string)
    requires SwkTypes.LookupSwkType(swkType).Some?
    requires Inv(cfg, st) && Bound(st) && OneSession(st) && "r" in st.requests
    requires QuarkOf("KMS:k") in st.keys && st.keys[QuarkOf("KMS:k")].session == 0
    ensures var r := CreateSession(cfg, st, Making("r", "b", [2], swkType)).st;
            && (cfg.cascade == AsWritten ==> QuarkOf("KMS:k") in r.keys && !Bound(r))
            && (cfg.cascade == AsMeant ==> QuarkOf("KMS:k") !in r.keys && Bound(r))
  {
    var n := Making("r", "b", [2], swkType);
    assert n.stm in st.stms;
    CreateSessionEffect(cfg, st, n);
    SecondSessionTables(cfg, st, n);
  }

  lemma SecondSessionTables(cfg: Config, st: State, n: NewSession)
    requires Wired(st) && Bound(st) && OneSession(st) && n.stm == "SGX" && n.stm in st.stms && n.id == "b"
    requires QuarkOf("KMS:k") in st.keys && st.keys[QuarkOf("KMS:k")].session == 0
    ensures var r := Created(cfg, st, n);
            && (cfg.cascade == AsWritten ==> QuarkOf("KMS:k") in r.keys && !Bound(r))
            && (cfg.cascade == AsMeant ==> QuarkOf("KMS:k") !in r.keys && Bound(r))
  {
    assert GivesWay(st, n) == {"a"};
    if cfg.cascade == AsWritten {
      assert Deref(st, st.keys[QuarkOf("KMS:k")].session).id in GivesWay(st, n);
      CreatedBoundAsWritten(cfg, st, n);
    } else {
      CreatedBoundAsMeant(cfg, st, n);
    }
  }

  // ----- A refused key -----

  /** A load leaves a key that was never delivered exactly when NPMs took part and every one of them left a key that its STM
      cannot take. From then on every load of the URL returns TRUE without running an NPM. */
  lemma RefusedKeyIsAnsweredLater(cfg: Config, st: State, url: string, data: Option<UriData>, runs: seq<NpmRun>)
    requires !st.locked && UrlAccepted(url) && QuarkOf(url) !in st.keys
    ensures var r := LoadUrl(cfg, st, url, data, runs);
            var left := SomeEngaged(runs) && AllRefuse(cfg, st.(locked := true), url, data, runs);
            && (left <==> !r.ok && QuarkOf(url) in r.st.keys)
            && (left ==> !Delivered(cfg, st.(locked := true), LoadEvents(cfg, st, url, data, runs), url)
                         && forall data', runs' :: LoadUrl(cfg, r.st, url, data', runs') == Outcome(r.st, true)
                                                   && LoadEvents(cfg, r.st, url, data', runs') == [])
  {
    LoadResult(cfg, st, url, data, runs);
    LeftUndelivered(cfg, st, url, data, runs);
  }

  lemma {:induction false} TameSplit(cfg: Config, st: State, a: seq<Event>, b: seq<Event>)
    requires TameRun(cfg, st, a + b) && AttemptsSucceed(cfg, st, a + b)
    ensures TameRun(cfg, st, a) && TameRun(cfg, Run(cfg, st, a), b)
    ensures AttemptsSucceed(cfg, st, a) && AttemptsSucceed(cfg, Run(cfg, st, a), b)
    decreases |a|
  {
    hide Step, Tame, Attempts;
    if a == [] {
      assert a + b == b;
    } else {
      assert (a + b)[0] == a[0] && (a + b)[1..] == a[1..] + b;
      TameSplit(cfg, Step(cfg, st, a[0]).st, a[1..], b);
    }
  }

  /** Every event is tame, and every attempt to set a session succeeds. */
  predicate Orderly(cfg: Config, st: State, es: seq<Event>) {
    TameRun(cfg, st, es) && AttemptsSucceed(cfg, st, es)
  }

  lemma RefusesExactly(cfg: Config, st: State, url: string, data: Option<UriData>, run: NpmRun)
    requires cfg.cascade == AsMeant && Inv(cfg, st) && WrapMatches(st) && Engaged(run)
    requires Orderly(cfg, st, NpmEvents(cfg, st, url, data, run))
    ensures var mid := AfterCalls(cfg, st, data, run);
            Refuses(cfg, st, url, data, run) <==>
              QuarkOf(url) in mid.keys && !Fits(mid, run.request, mid.keys[QuarkOf(url)], run.unwrap)
  {
    hide Inv, WrapMatches, Fits, Takeable, Calls, Begin, LoadToStm, Run, TameRun, AttemptsSucceed;
    var mid := AfterCalls(cfg, st, data, run);
    var head := [Open(run.request, data)] + CallEvents(run.calls);
    var hand := if QuarkOf(url) in mid.keys then [Hand(run.request, url, run.unwrap)] else [];
    assert NpmEvents(cfg, st, url, data, run) == head + (hand + [Close(run.request)]);
    TameSplit(cfg, st, head, hand + [Close(run.request)]);
    OpenAndCalls(cfg, st, data, run);
    RunKeepsInv(cfg, st, head);
    RunKeepsWrap(cfg, st, head);
    if QuarkOf(url) in mid.keys {
      InvIsBound(cfg, mid, QuarkOf(url));
      TakenExactly(cfg, mid, run.request, QuarkOf(url), run.unwrap);
      TakeableExact(mid, run.request, mid.keys[QuarkOf(url)], run.unwrap);
    }
  }

  lemma InvIsBound(cfg: Config, st: State, t: TableKey)
    requires cfg.cascade == AsMeant && Inv(cfg, st) && t in st.keys
    ensures Listed(st, st.keys[t].session)
  {
  }

  /** Each NPM that takes part leaves a key that does not fit its request. */
  predicate AllUnfit(cfg: Config, st: State, url: string, data: Option<UriData>, runs: seq<NpmRun>)
    decreases |runs|
  {
    runs == []
    || ((Engaged(runs[0]) ==>
           var mid := AfterCalls(cfg, st, data, runs[0]);
           QuarkOf(url) in mid.keys && !Fits(mid, runs[0].request, mid.keys[QuarkOf(url)], runs[0].unwrap))
        && AllUnfit(cfg, TryNpm(cfg, st, url, data, runs[0]).st, url, data, runs[1..]))
  }

  lemma {:induction false} AllRefuseExactly(cfg: Config, st: State, url: string, data: Option<UriData>, runs: seq<NpmRun>)
    requires cfg.cascade == AsMeant && Inv(cfg, st) && WrapMatches(st)
    requires Orderly(cfg, st, WalkEvents(cfg, st, url, data, runs))
    ensures AllRefuse(cfg, st, url, data, runs) <==> AllUnfit(cfg, st, url, data, runs)
    decreases |runs|
  {
    hide Inv, WrapMatches, Fits, TryNpm, NpmEvents, AfterCalls, Refuses;
    if runs != [] {
      var o := TryNpm(cfg, st, url, data, runs[0]);
      var es := NpmEvents(cfg, st, url, data, runs[0]);
      var rest := if o.ok then [] else WalkEvents(cfg, o.st, url, data, runs[1..]);
      TameSplit(cfg, st, es, rest);
      TryIsRun(cfg, st, url, data, runs[0]);
      TryExact(cfg, st, url, data, runs[0]);
      if Engaged(runs[0]) {
        RefusesExactly(cfg, st, url, data, runs[0]);
      }
      if !o.ok {
        RunKeepsInv(cfg, st, es);
        RunKeepsWrap(cfg, st, es);
        AllRefuseExactly(cfg, o.st, url, data, runs[1..]);
      }
    }
  }

  /** With the meant removal, and while every attempt to set a session succeeds, a load leaves its key undelivered exactly
      when some NPM takes part and each that does leaves a key that does not fit its request: of another STM than the SGX
      one, under a request without module data or of the other key type, or with a record that does not parse with an iv. */
  lemma LeftUndeliveredExactly(cfg: Config, st: State, url: string, data: Option<UriData>, runs: seq<NpmRun>)
    requires cfg.cascade == AsMeant && Inv(cfg, st) && WrapMatches(st)
    requires UrlAccepted(url) && QuarkOf(url) !in st.keys
    requires Orderly(cfg, st.(locked := true), LoadEvents(cfg, st, url, data, runs))
    ensures var r := LoadUrl(cfg, st, url, data, runs);
            !r.ok && QuarkOf(url) in r.st.keys <==> SomeEngaged(runs) && AllUnfit(cfg, st.(locked := true), url, data, runs)
  {
    LocksApart(cfg, st, true);
    LeftUndelivered(cfg, st, url, data, runs);
    AllRefuseExactly(cfg, st.(locked := true), url, data, runs);
  }

  function Refused(swkType: string): (run: NpmRun) {
    NpmRun(true, true, "q", [OnSession(Making("q", "a", [1], swkType)), OnKey(KEY)], false)
  }

  /** It does happen: an NPM creates a session and a key whose record the STM cannot take. */
  lemma RefusedKeyExample(cfg: Config, swkType: string)
    requires SwkTypes.LookupSwkType(swkType).Some?
    ensures var r := LoadUrl(cfg, StartWith(map[], false), "KMS:k", None, [Refused(swkType)]);
            UrlAccepted("KMS:k") && !r.ok && QuarkOf("KMS:k") in r.st.keys
  {
    var run := Refused(swkType);
    var st := StartWith(map[], true);
    KmsUrlAccepted();
    assert Begin(st, None, run) == StartWith(map["q" := None], true);
    RefusedCalls(cfg, map["q" := None], swkType);
    var o := TryNpm(cfg, st, "KMS:k", None, run);
    assert !o.ok && QuarkOf("KMS:k") in o.st.keys;
    OneRefusal(cfg, st, "KMS:k", None, run);
  }

  lemma OneRefusal(cfg: Config, st: State, url: string, data: Option<UriData>, run: NpmRun)
    requires !TryNpm(cfg, st, url, data, run).ok
    ensures WalkNpms(cfg, st, url, data, [run]) == Outcome(TryNpm(cfg, st, url, data, run).st, false)
  {
    assert WalkNpms(cfg, TryNpm(cfg, st, url, data, run).st, url, data, []).ok == false;
  }

  lemma KmsUrlAccepted()
    ensures UrlAccepted("KMS:k")
  {
    assert "KMS:k" == "KMS" + [':'] + "k";
    PiecesOfCons("KMS", "k", ':');
    PiecesOfFree("k", ':');
  }

  lemma RefusedCalls(cfg: Config, requests: map<string, Option<UriData>>, swkType: string)
    requires "q" in requests && SwkTypes.LookupSwkType(swkType).Some?
    ensures var st := Calls(cfg, StartWith(requests, true), Refused(swkType).calls);
            QuarkOf("KMS:k") in st.keys && HandOver(st, "q", st.keys[QuarkOf("KMS:k")]).None?
  {
    var calls := Refused(swkType).calls;
    var st := StartWith(requests, true);
    FirstSession(cfg, st.requests, true, "q", swkType);
    var first := CreateSession(cfg, st, Making("q", "a", [1], swkType)).st;
    FirstKey(cfg, first);
    TwoCalls(cfg, st, calls[0], calls[1]);
    var second := CreateKey(cfg, first, KEY).st;
    EmptyRecord(second, "q", second.keys[QuarkOf("KMS:k")]);
  }

  lemma TwoCalls(cfg: Config, st: State, a: Callback, b: Callback)
    ensures Calls(cfg, st, [a, b]) == Call(cfg, Call(cfg, st, a).st, b).st
  {
    assert [a, b][1..] == [b] && [b][1..] == [];
    assert Calls(cfg, Call(cfg, Call(cfg, st, a).st, b).st, []) == Call(cfg, Call(cfg, st, a).st, b).st;
    assert Calls(cfg, Call(cfg, st, a).st, [b]) == Call(cfg, Call(cfg, st, a).st, b).st;
  }

  lemma EmptyRecord(st: State, request: string, k: Key)
    requires KeyData(k) == []
    ensures HandOver(st, request, k).None?
  {
  }
}
