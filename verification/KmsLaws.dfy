/** What the KMS plug-in's protocol guarantees, for every script of server replies. */
module KmsLaws {
  import opened Strings
  import opened Cache
  import opened Token
  import opened AgentModel
  import opened AgentLaws
  import opened AgentCache
  import opened AgentRuns
  import opened AgentLoads
  import opened AgentGuarantees
  import opened KmsModel
  import SessionIds
  import KeyTransfer
  import SwkTypes

  // ----- The plug-in is an NPM -----

  predicate OwnCall(c: Callback, request: string) {
    !c.OnSetSession? && (c.OnSession? ==> c.session.request == request)
  }

  predicate OwnCalls(calls: seq<Callback>, request: string) {
    forall i :: 0 <= i < |calls| ==> OwnCall(calls[i], request)
  }

  /** From k to r the agent saw these callbacks and nothing else, all under the one request id. */
  predicate CalledBack(cfg: Config, k: Kms, r: Kms, request: string, calls: seq<Callback>) {
    && r.calls == k.calls + calls && r.st == Calls(cfg, k.st, calls) && OwnCalls(calls, request)
  }

  lemma {:induction false} CallsConcat(cfg: Config, st: State, a: seq<Callback>, b: seq<Callback>)
    ensures Calls(cfg, st, a + b) == Calls(cfg, Calls(cfg, st, a), b)
    decreases |a|
  {
    hide Call;
    if a == [] {
      assert a + b == b;
    } else {
      CallsConcat(cfg, Call(cfg, st, a[0]).st, a[1..], b);
      assert (a + b)[0] == a[0] && (a + b)[1..] == a[1..] + b;
    }
  }

  lemma CalledBackOnce(cfg: Config, k: Kms, c: Callback, request: string)
    requires OwnCall(c, request)
    ensures CalledBack(cfg, k, CallBack(cfg, k, c).k, request, [c])
  {
    assert Calls(cfg, Call(cfg, k.st, c).st, []) == Call(cfg, k.st, c).st;
  }

  lemma OwnConcat(x: seq<Callback>, y: seq<Callback>, request: string)
    requires OwnCalls(x, request) && OwnCalls(y, request)
    ensures OwnCalls(x + y, request)
  {
  }

  lemma CalledBackTwice(cfg: Config, a: Kms, b: Kms, c: Kms, request: string, x: seq<Callback>, y: seq<Callback>)
    requires CalledBack(cfg, a, b, request, x) && CalledBack(cfg, b, c, request, y)
    ensures CalledBack(cfg, a, c, request, x + y)
  {
    hide Calls, OwnCalls;
    OwnConcat(x, y, request);
    assert c.calls == a.calls + (x + y);
    StatesChain(cfg, a.st, b.st, c.st, x, y);
  }

  lemma StatesChain(cfg: Config, a: State, b: State, c: State, x: seq<Callback>, y: seq<Callback>)
    requires b == Calls(cfg, a, x) && c == Calls(cfg, b, y)
    ensures c == Calls(cfg, a, x + y)
  {
    CallsConcat(cfg, a, x, y);
  }

  lemma CalledBackNone(cfg: Config, a: Kms, b: Kms, request: string)
    requires b.st == a.st && b.calls == a.calls
    ensures CalledBack(cfg, a, b, request, [])
  {
    assert Calls(cfg, a.st, []) == a.st;
    assert a.calls + [] == a.calls;
  }

  /** `start_session` makes at most a challenge and a session creation, and succeeds only with the latter. */
  lemma StartSessionCalls(cfg: Config, k: Kms, request: string, r: Refusal, luck: ChallengeLuck)
    returns (calls: seq<Callback>)
    ensures CalledBack(cfg, k, StartSession(cfg, k, request, r, luck).k, request, calls)
  {
    var o := StartSession(cfg, k, request, r, luck);
    if !Complete(r) || r.method_.value != "post" {
      calls := [];
      CalledBackNone(cfg, k, o.k, request);
    } else {
      var challenge := OnChallenge(request, r.stm.value, r.challenge.value.nonce, luck);
      var c := CallBack(cfg, k, challenge);
      CalledBackOnce(cfg, k, challenge, request);
      calls := [challenge];
      if c.ok {
        var posted := SendSessionRequest(c.k, r.stm.value, r.challenge.value.id);
        CalledBackNone(cfg, c.k, posted, request);
        CalledBackTwice(cfg, k, c.k, posted, request, [challenge], []);
        assert [challenge] + [] == [challenge];
        if NextSessionReply(c.k).SessionMade? && NextSessionReply(c.k).status.Some? && NextSessionReply(c.k).swkType.Some? {
          var made := NextSessionReply(c.k);
          var create := OnSession(NewSession(request, r.stm.value, r.challenge.value.id, OrEmpty(made.swk),
                                             made.swkType.value, made.luck, made.unwrap));
          CalledBackOnce(cfg, posted, create, request);
          CalledBackTwice(cfg, k, posted, CallBack(cfg, posted, create).k, request, [challenge], [create]);
          calls := [challenge, create];
          assert [challenge] + [create] == calls;
        }
      }
    }
  }

  lemma AcceptKeyCalls(cfg: Config, k: Kms, request: string, url: string, t: Transfer, luck: Luck)
    returns (calls: seq<Callback>)
    ensures CalledBack(cfg, k, AcceptKey(cfg, k, url, t, luck).k, request, calls)
  {
    var id := SessionIds.IdOf(SessionIds.TokensOf(t.headers));
    if t.id.None? || t.algorithm.None? || !id.Id? {
      calls := [];
      CalledBackNone(cfg, k, k, request);
    } else {
      var c := OnKey(NewKey(url, KeyTypeOf(t.algorithm.value), Some(map[KEYDATA := OrEmpty(t.payload)]), Some(id.id), luck));
      CalledBackOnce(cfg, k, c, request);
      calls := [c];
    }
  }

  /** Whatever the server replies, the plug-in acts on the agent as one more NPM: through some callbacks of its own, so
      that every invariant over all NPMs holds for it. */
  lemma {:induction false} KmsIsAnNpm(cfg: Config, k: Kms, request: string, url: string, tries: nat)
    returns (calls: seq<Callback>)
    ensures CalledBack(cfg, k, NpmLoadKey(cfg, k, request, url, tries).k, request, calls)
    decreases if tries > 1 then 0 else 2 - tries
  {
    var o := NpmLoadKey(cfg, k, request, url, tries);
    var k1 := SendKeyRequest(k, url);
    if tries > 1 || !ForKms(url) {
      calls := [];
      CalledBackNone(cfg, k, k, request);
    } else {
      CalledBackNone(cfg, k, k1, request);
      match NextKeyReply(k)
      case NoAnswer => calls := [];
      case OtherStatus(_) => calls := [];
      case Granted(t, luck) =>
        calls := AcceptKeyCalls(cfg, k1, request, url, t, luck);
        CalledBackTwice(cfg, k, k1, o.k, request, [], calls);
        assert [] + calls == calls;
      case Unauthorized(r, luck) =>
        calls := [];
        if r.status == Some("failure") && r.fault == Some("not-authorized") {
          var s := StartSession(cfg, k1, request, r, luck);
          var first := StartSessionCalls(cfg, k1, request, r, luck);
          CalledBackTwice(cfg, k, k1, s.k, request, [], first);
          assert [] + first == first;
          calls := first;
          if s.ok {
            var rest := KmsIsAnNpm(cfg, s.k, request, url, tries + 1);
            CalledBackTwice(cfg, k, s.k, o.k, request, first, rest);
            calls := first + rest;
          }
        }
    }
  }

  // ----- Bounds -----

  lemma {:induction false} RequestsConcat(a: seq<Sent>, b: seq<Sent>)
    ensures KeyRequests(a + b) == KeyRequests(a) + KeyRequests(b)
    ensures SessionRequests(a + b) == SessionRequests(a) + SessionRequests(b)
  {
    if a == [] {
      assert a + b == b;
    } else {
      RequestsConcat(a[1..], b);
      assert (a + b)[0] == a[0] && (a + b)[1..] == a[1..] + b;
    }
  }

  lemma OneRequest(s: Sent)
    ensures KeyRequests([s]) == (if s.KeyRequest? then 1 else 0)
    ensures SessionRequests([s]) == (if s.SessionRequest? then 1 else 0)
  {
    assert [s][1..] == [];
  }

  lemma StartSessionRequests(cfg: Config, k: Kms, request: string, r: Refusal, luck: ChallengeLuck)
    ensures var o := StartSession(cfg, k, request, r, luck);
            && KeyRequests(o.k.sent) == KeyRequests(k.sent)
            && SessionRequests(o.k.sent) <= SessionRequests(k.sent) + 1
            && k.sent <= o.k.sent
            && o.k.last == k.last
  {
    if Complete(r) {
      var c := CallBack(cfg, k, OnChallenge(request, r.stm.value, r.challenge.value.nonce, luck));
      var posted := SessionRequest(r.stm.value, r.challenge.value.id, TokenQuote(c.k.st));
      RequestsConcat(k.sent, [posted]);
      OneRequest(posted);
    }
  }

  /** With `tries` at entry, at most 2 - tries key requests and as many session requests go out: two of each in all. */
  lemma {:induction false} RequestsBounded(cfg: Config, k: Kms, request: string, url: string, tries: nat)
    ensures var o := NpmLoadKey(cfg, k, request, url, tries);
            var left := if tries > 1 then 0 else 2 - tries;
            && KeyRequests(o.k.sent) <= KeyRequests(k.sent) + left
            && SessionRequests(o.k.sent) <= SessionRequests(k.sent) + left
            && k.sent <= o.k.sent
    decreases if tries > 1 then 0 else 2 - tries
  {
    if !(tries > 1) && ForKms(url) {
      var k1 := SendKeyRequest(k, url);
      RequestsConcat(k.sent, [KeyRequest(KeyIdOf(url), k.st.sessions.Keys)]);
      OneRequest(KeyRequest(KeyIdOf(url), k.st.sessions.Keys));
      match NextKeyReply(k)
      case Unauthorized(r, luck) =>
        StartSessionRequests(cfg, k1, request, r, luck);
        var s := StartSession(cfg, k1, request, r, luck);
        if s.ok {
          RequestsBounded(cfg, s.k, request, url, tries + 1);
        }
      case _ =>
    }
  }

  // ----- When a request is repeated -----

  predicate AsksForSession(k: Kms, url: string) {
    && ForKms(url)
    && NextKeyReply(k).Unauthorized?
    && NextKeyReply(k).refusal.status == Some("failure")
    && NextKeyReply(k).refusal.fault == Some("not-authorized")
  }

  /** The state after the first round, when it is a challenge round. */
  function FirstRound(cfg: Config, k: Kms, request: string, url: string): (o: KmsOutcome)
    requires NextKeyReply(k).Unauthorized?
  {
    StartSession(cfg, SendKeyRequest(k, url), request, NextKeyReply(k).refusal, NextKeyReply(k).challengeLuck)
  }

  lemma SecondRoundAsks(cfg: Config, k: Kms, request: string, url: string)
    requires ForKms(url)
    ensures KeyRequests(NpmLoadKey(cfg, k, request, url, 1).k.sent) == KeyRequests(k.sent) + 1
    ensures k.sent + [KeyRequest(KeyIdOf(url), k.st.sessions.Keys)] <= NpmLoadKey(cfg, k, request, url, 1).k.sent
  {
    var k1 := SendKeyRequest(k, url);
    RequestsConcat(k.sent, [KeyRequest(KeyIdOf(url), k.st.sessions.Keys)]);
    OneRequest(KeyRequest(KeyIdOf(url), k.st.sessions.Keys));
    match NextKeyReply(k)
    case Unauthorized(r, luck) =>
      StartSessionRequests(cfg, k1, request, r, luck);
      var s := StartSession(cfg, k1, request, r, luck);
      if s.ok {
        assert NpmLoadKey(cfg, s.k, request, url, 2) == KmsOutcome(s.k, false);
      }
    case _ =>
  }

  /** The key request is repeated exactly when the first reply is a well-formed challenge and a session came out of it. */
  lemma RepeatedExactly(cfg: Config, k: Kms, request: string, url: string)
    ensures KeyRequests(NpmLoadKey(cfg, k, request, url, 0).k.sent) == KeyRequests(k.sent) + 2 <==>
              AsksForSession(k, url) && FirstRound(cfg, k, request, url).ok
    ensures AsksForSession(k, url) && FirstRound(cfg, k, request, url).ok ==>
              NpmLoadKey(cfg, k, request, url, 0) == NpmLoadKey(cfg, FirstRound(cfg, k, request, url).k, request, url, 1)
  {
    var k1 := SendKeyRequest(k, url);
    RequestsConcat(k.sent, [KeyRequest(KeyIdOf(url), k.st.sessions.Keys)]);
    OneRequest(KeyRequest(KeyIdOf(url), k.st.sessions.Keys));
    if ForKms(url) {
      match NextKeyReply(k)
      case Unauthorized(r, luck) =>
        StartSessionRequests(cfg, k1, request, r, luck);
        if AsksForSession(k, url) && FirstRound(cfg, k, request, url).ok {
          SecondRoundAsks(cfg, FirstRound(cfg, k, request, url).k, request, url);
        }
      case _ =>
    }
  }

  lemma NewSessionListed(cfg: Config, st: State, n: NewSession)
    requires Inv(cfg, st) && n.request in st.requests && CreateSession(cfg, st, n).ok
    ensures var r := CreateSession(cfg, st, n).st;
            && Inv(cfg, r) && n.id in r.sessions && r.heap[r.sessions[n.id]].swk == n.swk
            && StmSession(r, SGX) == Some(r.sessions[n.id])
            && WrappedUnder(r, ChallengeKey(st.device))
  {
    CreateSessionInv(cfg, st, n);
    CreateSessionEffect(cfg, st, n);
    CreatedTables(cfg, st, n);
    CreatedWrapped(cfg, st, n);
    RenewedNames(st, n);
    WrappingKeyIsSet(st.device, Renewed(st, n).name, st.requests[n.request], n.swk, n.unwrap);
  }

  /** A session round that succeeds leaves the session of the challenge in the table, installed as the SGX STM's session,
      and the token's wrapping key is the unwrapping of its swk under the private half of the pair that was generated for
      this very challenge. Only then is the key request repeated, and the repeated request lists the new session. */
  lemma RepeatedOnlyWithSession(cfg: Config, k: Kms, request: string, url: string)
    requires Inv(cfg, k.st) && request in k.st.requests
    requires AsksForSession(k, url) && FirstRound(cfg, k, request, url).ok
    ensures var s := FirstRound(cfg, k, request, url).k.st; var id := NextKeyReply(k).refusal.challenge.value.id;
            && Inv(cfg, s) && id in s.sessions
            && StmSession(s, SGX) == Some(s.sessions[id])
            && WrappedUnder(s, Some(PrivateHalf(k.st.device.next)))
            && FirstRound(cfg, k, request, url).k.sent + [KeyRequest(KeyIdOf(url), s.sessions.Keys)]
               <= NpmLoadKey(cfg, k, request, url, 0).k.sent
  {
    var r := NextKeyReply(k).refusal;
    var luck := NextKeyReply(k).challengeLuck;
    var k1 := SendKeyRequest(k, url);
    var c := CallBack(cfg, k1, OnChallenge(request, r.stm.value, r.challenge.value.nonce, luck));
    ChallengeInv(cfg, k.st, request, r.stm.value, r.challenge.value.nonce, luck);
    ChallengeLeavesWrapping(k.st.device, r.stm.value, k.st.requests[request], r.challenge.value.nonce, luck);
    assert ChallengeKey(c.k.st.device) == Some(PrivateHalf(k.st.device.next));
    var made := NextSessionReply(c.k);
    var n := NewSession(request, r.stm.value, r.challenge.value.id, OrEmpty(made.swk), made.swkType.value, made.luck, made.unwrap);
    NewSessionListed(cfg, c.k.st, n);
    assert FirstRound(cfg, k, request, url).k.st == CreateSession(cfg, c.k.st, n).st;
    RepeatedExactly(cfg, k, request, url);
    SecondRoundAsks(cfg, FirstRound(cfg, k, request, url).k, request, url);
  }

  // ----- What the result means -----

  lemma SameKeys(cfg: Config, st: State, n: NewSession)
    ensures Installed(cfg, st, n).keys == MakeWay(cfg, st, n.stm, n.id).keys
  {
    hide MakeWay;
  }

  lemma SessionKeys(cfg: Config, st: State, n: NewSession)
    requires Admitted(st, n)
    ensures CreateSession(cfg, st, n).st.keys == Installed(cfg, st, n).keys
  {
    var stored := StoreSession(cfg, Installed(cfg, st, n), Target(st, n), n.luck);
    assert stored.keys == Installed(cfg, st, n).keys;
  }

  lemma SessionAddsNoKey(cfg: Config, st: State, n: NewSession, t: TableKey)
    requires t in CreateSession(cfg, st, n).st.keys
    ensures t in st.keys
  {
    if Admitted(st, n) {
      SessionKeys(cfg, st, n);
      SameKeys(cfg, st, n);
      MakeWayFields(cfg, st, n);
    }
  }

  lemma StartSessionAddsNoKey(cfg: Config, k: Kms, request: string, r: Refusal, luck: ChallengeLuck, t: TableKey)
    requires t !in k.st.keys
    ensures t !in StartSession(cfg, k, request, r, luck).k.st.keys
  {
    if Complete(r) && r.method_.value == "post" {
      var c := CallBack(cfg, k, OnChallenge(request, r.stm.value, r.challenge.value.nonce, luck));
      var made := NextSessionReply(c.k);
      if c.ok && made.SessionMade? && made.status.Some? && made.swkType.Some? {
        var n := NewSession(request, r.stm.value, r.challenge.value.id, OrEmpty(made.swk), made.swkType.value, made.luck, made.unwrap);
        if t in CreateSession(cfg, c.k.st, n).st.keys {
          SessionAddsNoKey(cfg, c.k.st, n, t);
        }
      }
    }
  }

  /** A complete 200 whose headers name a session of the table. */
  predicate GrantedUnder(reply: KeyReply, st: State) {
    && reply.Granted? && reply.transfer.id.Some? && reply.transfer.algorithm.Some?
    && var id := SessionIds.IdOf(SessionIds.TokensOf(reply.transfer.headers));
       id.Id? && id.id in st.sessions
  }

  /** The key type that the text of an "algorithm" field stands for. */
  predicate NamesType(algorithm: string, typ: KeyType) {
    match typ
    case RsaKey => algorithm == "RSA"
    case AesKey => algorithm == "AES"
    case InvalidKey => algorithm != "RSA" && algorithm != "AES"
  }

  /** The bytes of a field; a missing field is an empty buffer. */
  predicate BytesOf(field: Option<Bytes>, data: Bytes) {
    match field
    case Some(bytes) => data == bytes
    case None => data == []
  }

  /** The key that such a reply brings. */
  predicate Brought(reply: KeyReply, st: State, url: string) {
    && GrantedUnder(reply, st)
    && QuarkOf(url) in st.keys
    && var k := st.keys[QuarkOf(url)];
       var id := SessionIds.IdOf(SessionIds.TokensOf(reply.transfer.headers)).id;
       && k.session == st.sessions[id]
       && k.url == url && NamesType(reply.transfer.algorithm.value, k.typ)
       && k.attrs.Keys == {"KEYDATA"} && BytesOf(reply.transfer.payload, k.attrs["KEYDATA"])
  }

  lemma AcceptKeyExact(cfg: Config, k: Kms, url: string, t: Transfer, luck: Luck)
    requires QuarkOf(url) !in k.st.keys
    ensures var o := AcceptKey(cfg, k, url, t, luck);
            && (o.ok <==> GrantedUnder(Granted(t, luck), k.st))
            && (o.ok ==> Brought(Granted(t, luck), o.k.st, url))
            && o.k.st.sessions == k.st.sessions && o.k.sent == k.sent && o.k.last == k.last
  {
    hide SessionIds.IdOf, SessionIds.TokensOf, CreateKey, CacheKey;
    var id := SessionIds.IdOf(SessionIds.TokensOf(t.headers));
    if t.id.Some? && t.algorithm.Some? && id.Id? {
      CreateKeyEffect(cfg, k.st, NewKey(url, KeyTypeOf(t.algorithm.value), Some(map[KEYDATA := OrEmpty(t.payload)]), Some(id.id), luck));
    }
  }

  /** For a URL that is not in the table, the load returns TRUE exactly when some request was sent and the last key reply
      was a complete 200 naming a session that the agent knows. The key in the table is then the one that reply brought. */
  lemma {:induction false} ResultExact(cfg: Config, k: Kms, request: string, url: string, tries: nat)
    requires QuarkOf(url) !in k.st.keys
    ensures var o := NpmLoadKey(cfg, k, request, url, tries);
            && (o.ok <==> o.k.sent != k.sent && GrantedUnder(o.k.last, o.k.st))
            && (o.ok ==> Brought(o.k.last, o.k.st, url))
            && k.sent <= o.k.sent
            && (o.k.sent == k.sent ==> o.k == k)
    decreases if tries > 1 then 0 else 2 - tries
  {
    hide StartSession, AcceptKey, Brought, SessionIds.IdOf, SessionIds.TokensOf;
    if !(tries > 1) && ForKms(url) {
      var k1 := SendKeyRequest(k, url);
      match NextKeyReply(k)
      case Granted(t, luck) => AcceptKeyExact(cfg, k1, url, t, luck);
      case Unauthorized(r, luck) =>
        StartSessionRequests(cfg, k1, request, r, luck);
        StartSessionAddsNoKey(cfg, k1, request, r, luck, QuarkOf(url));
        var s := StartSession(cfg, k1, request, r, luck);
        if s.ok {
          ResultExact(cfg, s.k, request, url, tries + 1);
        }
      case _ =>
    }
  }

  /** Even as the code is written, the key that the plug-in creates is handed over under its own session: nothing can
      replace the session between the creation of the key and its delivery. */
  lemma KmsKeyIsListed(cfg: Config, k: Kms, request: string, url: string)
    requires Inv(cfg, k.st) && request in k.st.requests && QuarkOf(url) !in k.st.keys
    requires NpmLoadKey(cfg, k, request, url, 0).ok
    ensures var r := NpmLoadKey(cfg, k, request, url, 0).k.st;
            Inv(cfg, r) && QuarkOf(url) in r.keys && Listed(r, r.keys[QuarkOf(url)].session)
  {
    ResultExact(cfg, k, request, url, 0);
    var calls := KmsIsAnNpm(cfg, k, request, url, 0);
    OwnCallsTame(cfg, k.st, request, calls);
    CallsAreRun(cfg, k.st, calls);
    RunKeepsInv(cfg, k.st, CallEvents(calls));
  }

  // ----- The whole way into the token -----

  /** A 200 round touches neither wrapping key nor sessions. */
  lemma GrantedRoundKeepsWrap(cfg: Config, k: Kms, request: string, url: string, tries: nat)
    requires NextKeyReply(k).Granted? && WrapMatches(k.st)
    ensures WrapMatches(NpmLoadKey(cfg, k, request, url, tries).k.st)
  {
    var t := NextKeyReply(k).transfer;
    var id := SessionIds.IdOf(SessionIds.TokensOf(t.headers));
    if t.id.Some? && t.algorithm.Some? && id.Id? {
      QuietKey(cfg, k.st, NewKey(url, KeyTypeOf(t.algorithm.value), Some(map[KEYDATA := OrEmpty(t.payload)]), Some(id.id),
                                 NextKeyReply(k).keyLuck));
    }
  }

  lemma SecondRoundGranted(cfg: Config, k: Kms, request: string, url: string)
    requires NpmLoadKey(cfg, k, request, url, 1).ok
    ensures NextKeyReply(k).Granted?
  {
  }

  /** A load that succeeds leaves the wrapping key matching the session, whatever the server replied on the way. */
  lemma KmsKeepsWrap(cfg: Config, k: Kms, request: string, url: string)
    requires Inv(cfg, k.st) && WrapMatches(k.st) && request in k.st.requests
    requires NpmLoadKey(cfg, k, request, url, 0).ok
    ensures WrapMatches(NpmLoadKey(cfg, k, request, url, 0).k.st)
  {
    if AsksForSession(k, url) && FirstRound(cfg, k, request, url).ok {
      RepeatedOnlyWithSession(cfg, k, request, url);
      RepeatedExactly(cfg, k, request, url);
      SecondRoundGranted(cfg, FirstRound(cfg, k, request, url).k, request, url);
      GrantedRoundKeepsWrap(cfg, FirstRound(cfg, k, request, url).k, request, url, 1);
    } else {
      FirstRoundGranted(cfg, k, request, url);
      GrantedRoundKeepsWrap(cfg, k, request, url, 0);
    }
  }

  lemma FirstRoundGranted(cfg: Config, k: Kms, request: string, url: string)
    requires NpmLoadKey(cfg, k, request, url, 0).ok
    requires !(AsksForSession(k, url) && FirstRound(cfg, k, request, url).ok)
    ensures NextKeyReply(k).Granted?
  {
  }

  /** From st to r, the key that this reply brought entered the token: one new object, the parts of the reply's payload
      unwrapped under the unwrapping of the swk of the session that the reply named. */
  predicate Transferred(reply: KeyReply, st: State, url: string, r: State) {
    && Brought(reply, st, url)
    && var w := Wrapping(st.device);
       var session := Deref(st, st.keys[QuarkOf(url)].session);
       var payload := reply.transfer.payload;
       var typ := if reply.transfer.algorithm == Some("RSA") then RsaKey else AesKey;
       && w.Some? && w.value.WrappingKey? && w.value.under.PrivateHalf? && w.value.wrapped == session.swk
       && reply.transfer.algorithm.value in ["RSA", "AES"]
       && payload.Some? && KeyTransfer.Covered(payload.value) && KeyTransfer.Parse(payload.value).Some?
       && r.device.objects
          == st.device.objects[st.device.next := ApplicationKey(w.value, KeyTransfer.Parse(payload.value).value, typ)]
  }

  lemma BroughtIsTransferred(cfg: Config, reply: KeyReply, st: State, request: string, url: string, unwrap: bool)
    requires Inv(cfg, st) && WrapMatches(st) && Brought(reply, st, url) && Listed(st, st.keys[QuarkOf(url)].session)
    requires LoadToStm(st, request, st.keys[QuarkOf(url)], unwrap).ok
    ensures Transferred(reply, st, url, LoadToStm(st, request, st.keys[QuarkOf(url)], unwrap).st)
  {
    var k := st.keys[QuarkOf(url)];
    TakenFromSgx(st, request, k, unwrap);
    OwnSession(cfg, st, request, QuarkOf(url));
    KeyTaken(cfg, st, request, QuarkOf(url), unwrap, Some(Wrapping(st.device).value.under));
  }

  /** The key that this reply brought suits the request: the session it names belongs to the SGX STM, the payload parses
      with an iv, the algorithm is that of the URI, and the unwrap call succeeds. */
  predicate ReplyFits(reply: KeyReply, st: State, request: string, unwrap: bool) {
    && GrantedUnder(reply, st) && unwrap
    && Deref(st, st.sessions[SessionIds.IdOf(SessionIds.TokensOf(reply.transfer.headers)).id]).name == SGX
    && request in st.requests && st.requests[request].Some?
    && reply.transfer.algorithm == Some(if st.requests[request].value.isPrivate then "RSA" else "AES")
    && var payload := reply.transfer.payload;
       && payload.Some? && KeyTransfer.Covered(payload.value) && KeyTransfer.Parse(payload.value).Some?
       && KeyTransfer.Parse(payload.value).value.iv.Some?
  }

  lemma BroughtFits(reply: KeyReply, st: State, request: string, url: string, unwrap: bool)
    requires Brought(reply, st, url)
    ensures ReplyFits(reply, st, request, unwrap) <==> Fits(st, request, st.keys[QuarkOf(url)], unwrap)
  {
    hide KeyTransfer.Parse, KeyTransfer.Covered, KeyTransfer.ReadField, SessionIds.IdOf, SessionIds.TokensOf;
    KeyTransfer.RecordLayout([]);
  }

  /** End to end, for every script of server replies and with either removal: after a load of the plug-in that succeeds, the
      STM takes the key exactly when the last reply fits, and the key of that reply then entered the token under the session
      that this very reply named. */
  lemma KmsEndToEnd(cfg: Config, k: Kms, request: string, url: string, unwrap: bool)
    requires Inv(cfg, k.st) && WrapMatches(k.st) && request in k.st.requests && QuarkOf(url) !in k.st.keys
    requires NpmLoadKey(cfg, k, request, url, 0).ok
    ensures var o := NpmLoadKey(cfg, k, request, url, 0).k;
            && QuarkOf(url) in o.st.keys
            && var taken := LoadToStm(o.st, request, o.st.keys[QuarkOf(url)], unwrap);
               && (taken.ok <==> ReplyFits(o.last, o.st, request, unwrap))
               && (taken.ok ==> Transferred(o.last, o.st, url, taken.st))
  {
    hide NpmLoadKey, LoadToStm, Transferred, ReplyFits, Fits;
    var o := NpmLoadKey(cfg, k, request, url, 0).k;
    ResultExact(cfg, k, request, url, 0);
    KmsKeyIsListed(cfg, k, request, url);
    KmsKeepsWrap(cfg, k, request, url);
    TakenExactly(cfg, o.st, request, QuarkOf(url), unwrap);
    BroughtFits(o.last, o.st, request, url, unwrap);
    if LoadToStm(o.st, request, o.st.keys[QuarkOf(url)], unwrap).ok {
      BroughtIsTransferred(cfg, o.last, o.st, request, url, unwrap);
    }
  }

  lemma TakenFromSgx(st: State, request: string, k: Key, unwrap: bool)
    requires LoadToStm(st, request, k, unwrap).ok
    ensures Deref(st, k.session).name == SGX && HandOver(st, request, k).Some?
  {
  }

  lemma OwnSession(cfg: Config, st: State, request: string, t: TableKey)
    requires Inv(cfg, st) && t in st.keys && Listed(st, st.keys[t].session)
    requires HandOver(st, request, st.keys[t]).Some?
    ensures StmSession(st, Deref(st, st.keys[t].session).name) == Some(st.keys[t].session)
  {
  }

  // ----- When the protocol gets through -----

  /** A 401 that asks for a challenge of the SGX STM, whose token calls succeed. */
  predicate AsksSgx(reply: KeyReply) {
    && reply.Unauthorized?
    && reply.refusal.status == Some("failure") && reply.refusal.fault == Some("not-authorized")
    && Complete(reply.refusal) && reply.refusal.method_.value == "post" && reply.refusal.stm.value == SGX
    && var luck := reply.challengeLuck; luck.setUp == CachedToken(true) && luck.ecdsa && luck.keyPair && luck.quoteSize && luck.quote
  }

  /** A 201 whose swk has a known type and can be unwrapped. */
  predicate MakesSession(reply: SessionReply) {
    && reply.SessionMade? && reply.unwrap && reply.status.Some? && reply.swkType.Some?
    && SwkTypes.LookupSwkType(reply.swkType.value).Some?
  }

  /** A complete 200 under this session id. */
  predicate GrantsUnder(reply: KeyReply, id: string) {
    && reply.Granted? && reply.transfer.id.Some? && reply.transfer.algorithm.Some?
    && SessionIds.IdOf(SessionIds.TokensOf(reply.transfer.headers)) == SessionIds.Id(id)
  }

  /** The agent has an SGX STM and the request's module data, no token without a session stands in the way, and the id is
      free or one of that STM's own. */
  predicate CanServe(st: State, request: string, id: string) {
    && (st.device.token.Some? ==> st.device.token.value.session)
    && SGX in st.stms && request in st.requests && st.requests[request].Some?
    && (id in st.sessions ==> Deref(st, st.sessions[id]).name == SGX)
  }

  lemma ChallengeTaken(cfg: Config, st: State, request: string, id: string, nonce: Bytes, luck: ChallengeLuck)
    requires Inv(cfg, st) && CanServe(st, request, id)
    requires luck.setUp == CachedToken(true) && luck.ecdsa && luck.keyPair && luck.quoteSize && luck.quote
    ensures var o := TakeChallenge(st, request, SGX, nonce, luck);
            o.ok && Inv(cfg, o.st) && CanServe(o.st, request, id) && ChallengeKey(o.st.device).Some?
  {
    ChallengeInv(cfg, st, request, SGX, nonce, luck);
    ChallengeLeavesWrapping(st.device, SGX, st.requests[request], nonce, luck);
  }

  lemma SessionCreated(cfg: Config, st: State, n: NewSession)
    requires Inv(cfg, st) && n.stm == SGX && n.unwrap && CanServe(st, n.request, n.id)
    requires SwkTypes.LookupSwkType(n.swkType).Some? && ChallengeKey(st.device).Some?
    ensures CreateSession(cfg, st, n).ok
  {
    CreateSessionEffect(cfg, st, n);
    WrappingKeyIsSet(st.device, SGX, st.requests[n.request], n.swk, n.unwrap);
  }

  lemma FirstRoundServes(cfg: Config, k: Kms, request: string, url: string, id: string)
    requires Inv(cfg, k.st) && CanServe(k.st, request, id)
    requires AsksSgx(NextKeyReply(k)) && NextKeyReply(k).refusal.challenge.value.id == id && MakesSession(NextSessionReply(k))
    ensures FirstRound(cfg, k, request, url).ok
    ensures FirstRound(cfg, k, request, url).k.keyReplies == if k.keyReplies == [] then [] else k.keyReplies[1..]
  {
    hide Inv, CanServe, TakeChallenge, CreateSession;
    var r, luck := NextKeyReply(k).refusal, NextKeyReply(k).challengeLuck;
    var nonce := r.challenge.value.nonce;
    ChallengeTaken(cfg, k.st, request, id, nonce, luck);
    var made := NextSessionReply(k);
    SessionCreated(cfg, TakeChallenge(k.st, request, SGX, nonce, luck).st,
                   NewSession(request, SGX, id, OrEmpty(made.swk), made.swkType.value, made.luck, made.unwrap));
  }

  /** The protocol gets through: to a server that challenges, makes the session and then grants the key under it, every
      agent in a sound state that can serve the challenge answers with success, in two key requests. */
  lemma KmsServes(cfg: Config, k: Kms, request: string, url: string, id: string)
    requires Inv(cfg, k.st) && CanServe(k.st, request, id) && ForKms(url) && QuarkOf(url) !in k.st.keys
    requires AsksSgx(NextKeyReply(k)) && NextKeyReply(k).refusal.challenge.value.id == id && MakesSession(NextSessionReply(k))
    requires |k.keyReplies| >= 2 && GrantsUnder(k.keyReplies[1], id)
    ensures NpmLoadKey(cfg, k, request, url, 0).ok
    ensures KeyRequests(NpmLoadKey(cfg, k, request, url, 0).k.sent) == KeyRequests(k.sent) + 2
  {
    FirstRoundServes(cfg, k, request, url, id);
    RepeatedExactly(cfg, k, request, url);
    RepeatedOnlyWithSession(cfg, k, request, url);
    var k1 := FirstRound(cfg, k, request, url).k;
    var r, luck := NextKeyReply(k).refusal, NextKeyReply(k).challengeLuck;
    StartSessionAddsNoKey(cfg, SendKeyRequest(k, url), request, r, luck, QuarkOf(url));
    SecondRoundServes(cfg, k1, request, url, id);
  }

  lemma SecondRoundServes(cfg: Config, k: Kms, request: string, url: string, id: string)
    requires QuarkOf(url) !in k.st.keys && id in k.st.sessions && ForKms(url)
    requires GrantsUnder(NextKeyReply(k), id)
    ensures NpmLoadKey(cfg, k, request, url, 1).ok
  {
    AcceptKeyExact(cfg, SendKeyRequest(k, url), url, NextKeyReply(k).transfer, NextKeyReply(k).keyLuck);
  }

  // ----- The plug-in inside a load -----

  /** The plug-in at the start of its part in a load, facing this script. */
  function Facing(st: State, data: Option<UriData>, request: string, keyReplies: seq<KeyReply>,
                  sessionReplies: seq<SessionReply>): (k: Kms) {
    Kms(st.(requests := st.requests[request := data]), keyReplies, sessionReplies, [], [], NoAnswer)
  }

  /** The plug-in as one more NPM of the agent: the callbacks are those that the script makes it make. */
  function KmsRun(cfg: Config, k: Kms, request: string, url: string, unwrap: bool): (run: NpmRun) {
    NpmRun(true, Registers(url), request, NpmLoadKey(cfg, k, request, url, 0).k.calls, unwrap)
  }

  lemma {:induction false} NoKeyWithoutSuccess(cfg: Config, k: Kms, request: string, url: string, tries: nat)
    requires QuarkOf(url) !in k.st.keys
    ensures QuarkOf(url) in NpmLoadKey(cfg, k, request, url, tries).k.st.keys <==> NpmLoadKey(cfg, k, request, url, tries).ok
    decreases if tries > 1 then 0 else 2 - tries
  {
    hide StartSession, AcceptKey, SessionIds.IdOf, SessionIds.TokensOf;
    if !(tries > 1) && ForKms(url) {
      var k1 := SendKeyRequest(k, url);
      match NextKeyReply(k)
      case Granted(t, luck) => AcceptKeyAdds(cfg, k1, url, t, luck);
      case Unauthorized(r, luck) =>
        StartSessionAddsNoKey(cfg, k1, request, r, luck, QuarkOf(url));
        var s := StartSession(cfg, k1, request, r, luck);
        if s.ok {
          NoKeyWithoutSuccess(cfg, s.k, request, url, tries + 1);
        }
      case _ =>
    }
  }

  lemma AcceptKeyAdds(cfg: Config, k: Kms, url: string, t: Transfer, luck: Luck)
    requires QuarkOf(url) !in k.st.keys
    ensures QuarkOf(url) in AcceptKey(cfg, k, url, t, luck).k.st.keys <==> AcceptKey(cfg, k, url, t, luck).ok
  {
    hide SessionIds.IdOf, SessionIds.TokensOf, CreateKey;
    var id := SessionIds.IdOf(SessionIds.TokensOf(t.headers));
    if t.id.Some? && t.algorithm.Some? && id.Id? {
      CreateKeyEffect(cfg, k.st, NewKey(url, KeyTypeOf(t.algorithm.value), Some(map[KEYDATA := OrEmpty(t.payload)]), Some(id.id), luck));
    }
  }

  /** The agent's calls during the load are the plug-in's, so the two reach the same state. */
  lemma KmsRunIsKms(cfg: Config, st: State, data: Option<UriData>, request: string, url: string,
                    keyReplies: seq<KeyReply>, sessionReplies: seq<SessionReply>, unwrap: bool)
    ensures var k := Facing(st, data, request, keyReplies, sessionReplies);
            var run := KmsRun(cfg, k, request, url, unwrap);
            OwnRequest(run) && AfterCalls(cfg, st, data, run) == NpmLoadKey(cfg, k, request, url, 0).k.st
  {
    hide NpmLoadKey, Calls;
    var k := Facing(st, data, request, keyReplies, sessionReplies);
    var calls := KmsIsAnNpm(cfg, k, request, url, 0);
    assert [] + calls == calls;
  }

  lemma OneNpm(cfg: Config, st: State, url: string, data: Option<UriData>, run: NpmRun)
    requires UrlAccepted(url) && QuarkOf(url) !in st.keys
    ensures LoadUrl(cfg, st, url, data, [run]).ok <==>
              TryNpm(cfg, st.(locked := true), url, data, run).ok
              && QuarkOf(url) in TryNpm(cfg, st.(locked := true), url, data, run).st.keys
  {
    var st1 := st.(locked := true);
    var o := TryNpm(cfg, st1, url, data, run);
    assert [run][1..] == [];
    assert !WalkNpms(cfg, o.st, url, data, []).ok;
  }

  /** The whole loadkey call over the KMS plug-in, for every script of server replies: TRUE exactly when the key was there,
      or the plug-in takes the URL, its protocol succeeds and the last reply fits. */
  lemma KmsInLoad(cfg: Config, st: State, data: Option<UriData>, request: string, url: string,
                  keyReplies: seq<KeyReply>, sessionReplies: seq<SessionReply>, unwrap: bool)
    requires Inv(cfg, st) && WrapMatches(st) && !st.locked
    ensures var k := Facing(st.(locked := true), data, request, keyReplies, sessionReplies);
            var o := NpmLoadKey(cfg, k, request, url, 0);
            LoadUrl(cfg, st, url, data, [KmsRun(cfg, k, request, url, unwrap)]).ok <==>
              UrlAccepted(url)
              && (QuarkOf(url) in st.keys || (Registers(url) && o.ok && ReplyFits(o.k.last, o.k.st, request, unwrap)))
  {
    var st1 := st.(locked := true);
    var k := Facing(st1, data, request, keyReplies, sessionReplies);
    if UrlAccepted(url) && QuarkOf(url) !in st.keys {
      FacingInv(cfg, st, data, request, keyReplies, sessionReplies);
      KmsRunIsKms(cfg, st1, data, request, url, keyReplies, sessionReplies, unwrap);
      OneNpm(cfg, st, url, data, KmsRun(cfg, k, request, url, unwrap));
      KmsTried(cfg, st1, data, request, url, keyReplies, sessionReplies, unwrap);
    }
  }

  lemma FacingInv(cfg: Config, st: State, data: Option<UriData>, request: string, keyReplies: seq<KeyReply>,
                  sessionReplies: seq<SessionReply>)
    requires Inv(cfg, st) && WrapMatches(st)
    ensures var r := st.(locked := true);
            var k := Facing(r, data, request, keyReplies, sessionReplies);
            Inv(cfg, k.st) && WrapMatches(k.st) && request in k.st.requests
  {
    LocksApart(cfg, st, true);
    DeviceApart(cfg, st.(locked := true), Facing(st.(locked := true), data, request, keyReplies, sessionReplies).st);
  }

  lemma KmsTried(cfg: Config, st: State, data: Option<UriData>, request: string, url: string,
                 keyReplies: seq<KeyReply>, sessionReplies: seq<SessionReply>, unwrap: bool)
    requires QuarkOf(url) !in st.keys
    requires var k := Facing(st, data, request, keyReplies, sessionReplies);
             Inv(cfg, k.st) && WrapMatches(k.st) && request in k.st.requests
    ensures var k := Facing(st, data, request, keyReplies, sessionReplies);
            var o := NpmLoadKey(cfg, k, request, url, 0);
            var t := TryNpm(cfg, st, url, data, KmsRun(cfg, k, request, url, unwrap));
            t.ok && QuarkOf(url) in t.st.keys <==> Registers(url) && o.ok && ReplyFits(o.k.last, o.k.st, request, unwrap)
  {
    hide NpmLoadKey, TryNpm, LoadToStm, ReplyFits, Inv, WrapMatches, Registers, AfterCalls, Transferred;
    var k := Facing(st, data, request, keyReplies, sessionReplies);
    KmsRunIsKms(cfg, st, data, request, url, keyReplies, sessionReplies, unwrap);
    NoKeyWithoutSuccess(cfg, k, request, url, 0);
    TryParts(cfg, st, url, data, KmsRun(cfg, k, request, url, unwrap));
    if NpmLoadKey(cfg, k, request, url, 0).ok {
      KmsEndToEnd(cfg, k, request, url, unwrap);
    }
  }

  lemma TryParts(cfg: Config, st: State, url: string, data: Option<UriData>, run: NpmRun)
    ensures var t, mid := TryNpm(cfg, st, url, data, run), AfterCalls(cfg, st, data, run);
            && (!Engaged(run) ==> !t.ok)
            && (Engaged(run) ==>
                  && t.st.keys == mid.keys
                  && (t.ok <==> (QuarkOf(url) in mid.keys ==>
                                   LoadToStm(mid, run.request, mid.keys[QuarkOf(url)], run.unwrap).ok)))
  {
    DeliverKeepsKeys(AfterCalls(cfg, st, data, run), url, run);
  }
}
