/** The KMS protocol in terms of the fields of the server's replies: when a round succeeds, what it sends, what it leaves
    in the agent and in the token. npm/kms/src/intf.cpp:92-361. */
module KmsReplies {
  import opened Strings
  import opened Cache
  import opened Token
  import opened AgentModel
  import opened AgentLaws
  import opened AgentCache
  import opened AgentRuns
  import opened AgentLoads
  import opened AgentGuarantees
  import opened AgentCalls
  import opened KmsModel
  import opened KmsLaws
  import SessionIds
  import KeyTransfer
  import SwkTypes

  // ----- The challenge round -----

  /** The 401 is complete, asks for the SGX STM, and the token takes its challenge. */
  predicate ChallengeStands(st: State, request: string, r: Refusal, luck: ChallengeLuck) {
    && r.href.Some? && r.method_ == Some("post") && r.stm == Some("SGX") && r.challenge.Some?
    && "SGX" in st.stms && request in st.requests && st.requests[request].Some?
    && (if st.device.token.Some? then st.device.token.value.session else luck.setUp == CachedToken(true))
    && luck.ecdsa && luck.keyPair && luck.quoteSize && luck.quote
  }

  /** The answer to the session request is a 201 with a status and a known type, its swk can be unwrapped, and the id of the
      challenge is free or names a session of the SGX STM. */
  predicate SessionStands(st: State, id: string, replies: seq<SessionReply>) {
    && replies != [] && replies[0].SessionMade?
    && replies[0].status.Some? && replies[0].swkType.Some? && replies[0].unwrap
    && SwkTypes.LookupSwkType(replies[0].swkType.value).Some?
    && (id in st.sessions ==> Deref(st, st.sessions[id]).name == "SGX")
  }

  /** The callback for the session that a 201 makes. */
  ghost predicate MadeFrom(n: NewSession, request: string, id: string, reply: SessionReply) {
    && reply.SessionMade? && reply.swkType.Some?
    && n.request == request && n.stm == "SGX" && n.id == id && BytesOf(reply.swk, n.swk)
    && n.swkType == reply.swkType.value && n.luck == reply.luck && n.unwrap == reply.unwrap
  }

  /** The challenge of this 401. */
  function Challenge(request: string, r: Refusal, luck: ChallengeLuck): (c: Callback)
    requires r.stm.Some? && r.challenge.Some?
  {
    OnChallenge(request, r.stm.value, r.challenge.value.nonce, luck)
  }

  /** The round is the challenge of the 401 and, if that stands and a 201 with status and type answers it, the creation of the
      session that this 201 makes; no other callback is made, whether they succeed or not. */
  lemma RoundParts(cfg: Config, k: Kms, request: string, url: string) returns (n: NewSession)
    requires NextKeyReply(k).Unauthorized? && DeviceSound(k.st.device)
    ensures var r, luck := NextKeyReply(k).refusal, NextKeyReply(k).challengeLuck;
            var o := FirstRound(cfg, k, request, url);
            && (!ChallengeStands(k.st, request, r, luck) ==> !o.ok)
            && (ChallengeStands(k.st, request, r, luck) ==>
                  var c := Call(cfg, k.st, Challenge(request, r, luck)).st;
                  if k.sessionReplies != [] && k.sessionReplies[0].SessionMade? && k.sessionReplies[0].status.Some?
                     && k.sessionReplies[0].swkType.Some?
                  then MadeFrom(n, request, r.challenge.value.id, k.sessionReplies[0])
                       && o.ok == CreateSession(cfg, c, n).ok && o.k.st == CreateSession(cfg, c, n).st
                  else !o.ok && o.k.st == c)
  {
    hide TakeChallenge, CreateSession, SwkTypes.LookupSwkType;
    var r, luck := NextKeyReply(k).refusal, NextKeyReply(k).challengeLuck;
    n := NewSession(request, "SGX", "", [], "", ALL_WELL, true);
    if r.stm.Some? && r.challenge.Some? {
      ChallengeCallExact(cfg, k.st, request, r.stm.value, r.challenge.value.nonce, luck);
      if k.sessionReplies != [] && k.sessionReplies[0].SessionMade? && k.sessionReplies[0].swkType.Some? {
        var made := k.sessionReplies[0];
        n := NewSession(request, "SGX", r.challenge.value.id, OrEmpty(made.swk), made.swkType.value, made.luck, made.unwrap);
      }
    }
  }

  lemma AfterChallenge(cfg: Config, st: State, request: string, r: Refusal, luck: ChallengeLuck)
    requires Inv(cfg, st) && ChallengeStands(st, request, r, luck)
    ensures var c := Call(cfg, st, Challenge(request, r, luck)).st;
            && Inv(cfg, c) && c == st.(device := c.device)
            && ChallengeKey(c.device) == Some(PrivateHalf(st.device.next)) && c.device.next == st.device.next + 2
            && c.device.token.Some?
            && c.device.token.value.challenge == Some(Quote(PublicHalf(st.device.next), r.challenge.value.nonce))
  {
    hide GetChallenge, Inv;
    ChallengeInv(cfg, st, request, r.stm.value, r.challenge.value.nonce, luck);
    InvSound(cfg, st);
    ChallengeCallExact(cfg, st, request, r.stm.value, r.challenge.value.nonce, luck);
    ChallengeCallSetsUp(cfg, st, request, r.stm.value, r.challenge.value.nonce, luck);
  }

  lemma InvSound(cfg: Config, st: State)
    requires Inv(cfg, st)
    ensures DeviceSound(st.device) && Wired(st)
  {
  }

  /** The challenge round succeeds exactly when the 401 stands and the 201 that answers it stands. */
  lemma RoundExact(cfg: Config, k: Kms, request: string, url: string)
    requires Inv(cfg, k.st) && k.keyReplies != [] && k.keyReplies[0].Unauthorized?
    ensures var r, luck := k.keyReplies[0].refusal, k.keyReplies[0].challengeLuck;
            FirstRound(cfg, k, request, url).ok <==>
              ChallengeStands(k.st, request, r, luck) && SessionStands(k.st, r.challenge.value.id, k.sessionReplies)
  {
    hide Inv, CreateSession, TakeChallenge, FirstRound, SwkTypes.LookupSwkType;
    var r, luck := k.keyReplies[0].refusal, k.keyReplies[0].challengeLuck;
    InvSound(cfg, k.st);
    var n := RoundParts(cfg, k, request, url);
    if ChallengeStands(k.st, request, r, luck) {
      AfterChallenge(cfg, k.st, request, r, luck);
      if k.sessionReplies != [] && MadeFrom(n, request, r.challenge.value.id, k.sessionReplies[0]) {
        var c := Call(cfg, k.st, Challenge(request, r, luck)).st;
        InvSound(cfg, c);
        SessionCallExact(cfg, c, n);
      }
    }
  }

  /** What a challenge round sends: one GET, and if the 401 stands one POST that answers it with its own STM, its own id and
      a quote over its own nonce. Each takes one reply. */
  lemma RoundSends(cfg: Config, k: Kms, request: string, url: string)
    requires Inv(cfg, k.st) && k.keyReplies != [] && k.keyReplies[0].Unauthorized?
    ensures var r, luck := k.keyReplies[0].refusal, k.keyReplies[0].challengeLuck;
            var o := FirstRound(cfg, k, request, url).k;
            var stands := ChallengeStands(k.st, request, r, luck);
            && o.keyReplies == k.keyReplies[1..] && o.last == k.keyReplies[0]
            && o.sessionReplies == (if stands && k.sessionReplies != [] then k.sessionReplies[1..] else k.sessionReplies)
            && o.sent == k.sent + [KeyRequest(KeyIdOf(url), k.st.sessions.Keys)]
                         + if stands then [SessionRequest("SGX", r.challenge.value.id,
                                                          Some(Quote(PublicHalf(k.st.device.next), r.challenge.value.nonce)))]
                           else []
  {
    hide Inv, CreateSession, SwkTypes.LookupSwkType, GetChallenge;
    var r, luck := k.keyReplies[0].refusal, k.keyReplies[0].challengeLuck;
    InvSound(cfg, k.st);
    if r.stm.Some? && r.challenge.Some? {
      ChallengeCallExact(cfg, k.st, request, r.stm.value, r.challenge.value.nonce, luck);
      if ChallengeStands(k.st, request, r, luck) {
        AfterChallenge(cfg, k.st, request, r, luck);
      }
    }
  }

  /** What a successful round leaves: under the id of the 401 a session of the SGX STM that holds the swk of the 201, and, if
      it is new, its type; in the token the quote over the nonce of the 401, and as its wrapping key the unwrapping of the
      swk of the 201 under the private half that belongs to the quote. */
  lemma RoundLeaves(cfg: Config, k: Kms, request: string, url: string)
    requires Inv(cfg, k.st) && k.keyReplies != [] && k.keyReplies[0].Unauthorized?
    requires FirstRound(cfg, k, request, url).ok
    ensures var r, made := k.keyReplies[0].refusal, k.sessionReplies[0];
            var s := FirstRound(cfg, k, request, url).k.st;
            var id, pair := r.challenge.value.id, k.st.device.next;
            && Inv(cfg, s) && id in s.sessions && s.sessions[id] in s.heap
            && s.heap[s.sessions[id]].id == id && s.heap[s.sessions[id]].name == "SGX"
            && BytesOf(made.swk, s.heap[s.sessions[id]].swk)
            && s.heap[s.sessions[id]].swkType == (if id in k.st.sessions then k.st.heap[k.st.sessions[id]].swkType
                                                  else made.swkType.value)
            && (forall i :: i in s.sessions <==> i == id || (i in k.st.sessions && !IdOfStm(k.st, "SGX", i)))
            && s.requests == k.st.requests && StmSession(s, "SGX") == Some(s.sessions[id])
            && s.device.token.Some? && s.device.token.value.challenge == Some(Quote(PublicHalf(pair), r.challenge.value.nonce))
            && s.device.next == pair + 3
            && Wrapping(s.device) == Some(WrappingKey(PrivateHalf(pair), s.heap[s.sessions[id]].swk))
  {
    hide Inv, CreateSession, TakeChallenge, FirstRound, SwkTypes.LookupSwkType;
    var r, luck := k.keyReplies[0].refusal, k.keyReplies[0].challengeLuck;
    InvSound(cfg, k.st);
    RoundExact(cfg, k, request, url);
    var n := RoundParts(cfg, k, request, url);
    AfterChallenge(cfg, k.st, request, r, luck);
    var c := Call(cfg, k.st, Challenge(request, r, luck)).st;
    InvSound(cfg, c);
    SessionCallExact(cfg, c, n);
    SessionCallTables(cfg, c, n);
    SessionCallWraps(cfg, c, n);
    NewSessionListed(cfg, c, n);
  }

  // ----- The URL -----

  /** Which URLs the plug-in works on, which it registers for, and the key id that it asks the server for: the text between
      the first colon and the second, or the end. */
  lemma KmsUrls(prefix: string, id: string, rest: string)
    requires Free(prefix, ':') && Free(id, ':')
    ensures ForKms(prefix) <==> prefix == "KMS"
    ensures !Registers(prefix) && KeyIdOf(prefix) == ""
    ensures ForKms(prefix + [':'] + id) <==> prefix == "KMS"
    ensures Registers(prefix + [':'] + id) <==> prefix == "KMS" && id != ""
    ensures KeyIdOf(prefix + [':'] + id) == id
    ensures ForKms(prefix + [':'] + (id + [':'] + rest)) <==> prefix == "KMS"
    ensures Registers(prefix + [':'] + (id + [':'] + rest)) <==> prefix == "KMS" && id != ""
    ensures KeyIdOf(prefix + [':'] + (id + [':'] + rest)) == id
  {
    PiecesOfFree(prefix, ':');
    PiecesOfFree(id, ':');
    PiecesOfCons(prefix, id, ':');
    PiecesOfCons(prefix, id + [':'] + rest, ':');
    PiecesOfCons(id, rest, ':');
  }

  // ----- The whole protocol -----

  /** The reply grants a key under a session that is in the table. */
  ghost predicate GrantsKnown(reply: KeyReply, st: State) {
    exists id :: id in st.sessions && GrantsUnder(reply, id)
  }

  /** The reply grants a key under the session of the challenge, or under a known one that does not give way to it. */
  ghost predicate GrantsAfter(reply: KeyReply, st: State, made: string) {
    GrantsUnder(reply, made) || exists id :: id in st.sessions && !IdOfStm(st, "SGX", id) && GrantsUnder(reply, id)
  }

  /** A 401 that says the caller is not authorised. */
  predicate NotAuthorized(reply: KeyReply) {
    reply.Unauthorized? && reply.refusal.status == Some("failure") && reply.refusal.fault == Some("not-authorized")
  }

  ghost predicate GrantedAtOnce(k: Kms) {
    k.keyReplies != [] && GrantsKnown(k.keyReplies[0], k.st)
  }

  ghost predicate GrantedAfterRound(k: Kms, request: string) {
    && |k.keyReplies| >= 2 && NotAuthorized(k.keyReplies[0])
    && ChallengeStands(k.st, request, k.keyReplies[0].refusal, k.keyReplies[0].challengeLuck)
    && var id := k.keyReplies[0].refusal.challenge.value.id;
       SessionStands(k.st, id, k.sessionReplies) && GrantsAfter(k.keyReplies[1], k.st, id)
  }

  lemma GrantedNames(reply: KeyReply, st: State)
    ensures GrantedUnder(reply, st) <==> GrantsKnown(reply, st)
  {
    hide SessionIds.IdOf, SessionIds.TokensOf;
    if GrantedUnder(reply, st) {
      assert GrantsUnder(reply, SessionIds.IdOf(SessionIds.TokensOf(reply.transfer.headers)).id);
    }
  }

  /** One round that begins with this reply, which is not one that starts a session. */
  lemma GrantingRound(cfg: Config, k: Kms, request: string, url: string, tries: nat)
    requires QuarkOf(url) !in k.st.keys && ForKms(url) && tries <= 1 && (tries == 1 || !NotAuthorized(NextKeyReply(k)))
    ensures var o := NpmLoadKey(cfg, k, request, url, tries);
            && (o.ok <==> GrantsKnown(NextKeyReply(k), k.st))
            && (o.ok ==> Brought(NextKeyReply(k), o.k.st, url) && o.k.st.device == k.st.device
                         && o.k.st.sessions == k.st.sessions && o.k.st.heap == k.st.heap && o.k.st.stms == k.st.stms
                         && o.k.st.requests == k.st.requests)
  {
    hide Brought, GrantsKnown, GrantedUnder, StartSession, SessionIds.IdOf, SessionIds.TokensOf, AcceptKey;
    GrantedNames(NextKeyReply(k), k.st);
    if NextKeyReply(k).Granted? {
      AcceptKeyExact(cfg, SendKeyRequest(k, url), url, NextKeyReply(k).transfer, NextKeyReply(k).keyLuck);
      AcceptKeyLeaves(cfg, SendKeyRequest(k, url), url, NextKeyReply(k).transfer, NextKeyReply(k).keyLuck);
    } else {
      assert !GrantedUnder(NextKeyReply(k), k.st) by { NotGranted(NextKeyReply(k), k.st); }
      LastTry(cfg, k, request, url);
    }
  }

  lemma NotGranted(reply: KeyReply, st: State)
    requires !reply.Granted?
    ensures !GrantedUnder(reply, st)
  {
  }

  lemma LastTry(cfg: Config, k: Kms, request: string, url: string)
    requires !NextKeyReply(k).Granted?
    ensures !NpmLoadKey(cfg, k, request, url, 1).ok
    ensures !NotAuthorized(NextKeyReply(k)) ==> !NpmLoadKey(cfg, k, request, url, 0).ok
  {
    hide StartSession, AcceptKey;
  }

  lemma AcceptKeyLeaves(cfg: Config, k: Kms, url: string, t: Transfer, luck: Luck)
    ensures var s := AcceptKey(cfg, k, url, t, luck).k.st;
            s == k.st.(keys := s.keys, db := s.db)
  {
    hide SessionIds.IdOf, SessionIds.TokensOf, CreateKey, CacheKey;
    var id := SessionIds.IdOf(SessionIds.TokensOf(t.headers));
    if t.id.Some? && t.algorithm.Some? && id.Id? {
      CreateKeyEffect(cfg, k.st, NewKey(url, KeyTypeOf(t.algorithm.value), Some(map[KEYDATA := OrEmpty(t.payload)]),
                                        Some(id.id), luck));
    }
  }

  lemma RoundAddsNoKey(cfg: Config, k: Kms, request: string, url: string, t: TableKey)
    requires NextKeyReply(k).Unauthorized? && t !in k.st.keys
    ensures t !in FirstRound(cfg, k, request, url).k.st.keys
  {
    hide StartSession;
    StartSessionAddsNoKey(cfg, SendKeyRequest(k, url), request, NextKeyReply(k).refusal, NextKeyReply(k).challengeLuck, t);
  }

  /** After a successful first round the load ends as the second reply says. */
  lemma SecondReply(cfg: Config, k: Kms, request: string, url: string)
    requires Inv(cfg, k.st) && ForKms(url) && QuarkOf(url) !in k.st.keys
    requires k.keyReplies != [] && NotAuthorized(k.keyReplies[0]) && FirstRound(cfg, k, request, url).ok
    ensures var o, s := NpmLoadKey(cfg, k, request, url, 0), FirstRound(cfg, k, request, url).k.st;
            && (o.ok <==> |k.keyReplies| >= 2 && GrantsAfter(k.keyReplies[1], k.st, k.keyReplies[0].refusal.challenge.value.id))
            && (o.ok ==> Brought(k.keyReplies[1], o.k.st, url) && o.k.st.device == s.device
                         && o.k.st.sessions == s.sessions && o.k.st.heap == s.heap && o.k.st.stms == s.stms
                         && o.k.st.requests == s.requests)
  {
    hide Inv, NpmLoadKey, FirstRound, Brought, GrantsUnder, ChallengeStands;
    RoundExact(cfg, k, request, url);
    RoundSends(cfg, k, request, url);
    RoundLeaves(cfg, k, request, url);
    RepeatedExactly(cfg, k, request, url);
    RoundAddsNoKey(cfg, k, request, url, QuarkOf(url));
    var k1 := FirstRound(cfg, k, request, url).k;
    GrantingRound(cfg, k1, request, url, 1);
    NoGrant(k1.st);
  }

  lemma NoGrant(st: State)
    ensures !GrantsKnown(NoAnswer, st)
  {
  }

  /** The whole protocol by its replies: TRUE exactly when the first reply grants the key under a known session, or the first
      starts a round that succeeds and the second grants the key under its session or one that stayed. The key in the table
      is then the one that the granting reply brought. */
  lemma KmsExact(cfg: Config, k: Kms, request: string, url: string)
    requires Inv(cfg, k.st) && QuarkOf(url) !in k.st.keys
    ensures var o := NpmLoadKey(cfg, k, request, url, 0);
            && (o.ok <==> ForKms(url) && (GrantedAtOnce(k) || GrantedAfterRound(k, request)))
            && (o.ok ==> Brought(if GrantedAtOnce(k) then k.keyReplies[0] else k.keyReplies[1], o.k.st, url))
  {
    hide Inv, NpmLoadKey, FirstRound, Brought, ChallengeStands, SessionStands, GrantsUnder, GrantsAfter, ForKms;
    if ForKms(url) {
      if NotAuthorized(NextKeyReply(k)) {
        assert !GrantedAtOnce(k) by { NotGrantedAtOnce(k); }
        RoundExact(cfg, k, request, url);
        if FirstRound(cfg, k, request, url).ok {
          SecondReply(cfg, k, request, url);
        } else {
          FailedRound(cfg, k, request, url);
        }
      } else {
        GrantingRound(cfg, k, request, url, 0);
        NoGrant(k.st);
      }
    } else {
      NotForKms(cfg, k, request, url);
    }
  }

  /** What is left of a load that ends with its first reply: on a URL of another plug-in nothing happens at all, and after a
      reply that neither starts a round nor grants the key, one GET is all that happened. */
  lemma EndsAtOnce(cfg: Config, k: Kms, request: string, url: string)
    requires !ForKms(url) || k.keyReplies == [] || !(NotAuthorized(k.keyReplies[0]) || k.keyReplies[0].Granted?)
             || (k.keyReplies[0].Granted? && QuarkOf(url) !in k.st.keys && !GrantsKnown(k.keyReplies[0], k.st))
    ensures var o := NpmLoadKey(cfg, k, request, url, 0);
            && !o.ok && o.k.st == k.st
            && o.k.sent == k.sent + (if ForKms(url) then [KeyRequest(KeyIdOf(url), k.st.sessions.Keys)] else [])
            && o.k.sessionReplies == k.sessionReplies
  {
    hide StartSession, SessionIds.IdOf, SessionIds.TokensOf, CreateKey;
    if ForKms(url) && NextKeyReply(k).Granted? {
      var t, luck := NextKeyReply(k).transfer, NextKeyReply(k).keyLuck;
      GrantedNames(NextKeyReply(k), k.st);
      RefusedKeyLeaves(cfg, SendKeyRequest(k, url), url, t, luck);
    }
  }

  lemma RefusedKeyLeaves(cfg: Config, k: Kms, url: string, t: Transfer, luck: Luck)
    requires QuarkOf(url) !in k.st.keys && !GrantedUnder(Granted(t, luck), k.st)
    ensures var o := AcceptKey(cfg, k, url, t, luck);
            !o.ok && o.k.st == k.st && o.k.sent == k.sent && o.k.sessionReplies == k.sessionReplies
  {
    hide SessionIds.IdOf, SessionIds.TokensOf, CreateKey;
    var id := SessionIds.IdOf(SessionIds.TokensOf(t.headers));
    if t.id.Some? && t.algorithm.Some? && id.Id? {
      CreateKeyEffect(cfg, k.st, NewKey(url, KeyTypeOf(t.algorithm.value), Some(map[KEYDATA := OrEmpty(t.payload)]),
                                        Some(id.id), luck));
    }
  }

  lemma NotGrantedAtOnce(k: Kms)
    requires NotAuthorized(NextKeyReply(k))
    ensures !GrantedAtOnce(k)
  {
  }

  lemma FailedRound(cfg: Config, k: Kms, request: string, url: string)
    requires NextKeyReply(k).Unauthorized? && !FirstRound(cfg, k, request, url).ok
    ensures !NpmLoadKey(cfg, k, request, url, 0).ok
  {
    hide StartSession;
  }

  lemma NotForKms(cfg: Config, k: Kms, request: string, url: string)
    requires !ForKms(url)
    ensures !NpmLoadKey(cfg, k, request, url, 0).ok
  {
  }

  // ----- One script, from the 401 into the token -----

  /** The 200 carries a key of the algorithm that goes with the URI, in a record that parses with an iv. */
  predicate Loadable(reply: KeyReply, isPrivate: bool) {
    && reply.Granted? && reply.transfer.algorithm == Some(if isPrivate then "RSA" else "AES")
    && var payload := reply.transfer.payload;
       && payload.Some? && KeyTransfer.Covered(payload.value) && KeyTransfer.Parse(payload.value).Some?
       && KeyTransfer.Parse(payload.value).value.iv.Some?
  }

  /** A server that challenges, makes the session, and grants the key under it. */
  ghost predicate Serves(k: Kms, request: string, id: string, swk: Bytes) {
    && |k.keyReplies| >= 2 && NotAuthorized(k.keyReplies[0])
    && ChallengeStands(k.st, request, k.keyReplies[0].refusal, k.keyReplies[0].challengeLuck)
    && k.keyReplies[0].refusal.challenge.value.id == id
    && SessionStands(k.st, id, k.sessionReplies) && BytesOf(k.sessionReplies[0].swk, swk)
    && GrantsUnder(k.keyReplies[1], id)
  }

  /** The protocol then succeeds and leaves the key of the 200 under the session of the 201, whose swk the token has unwrapped
      under the private half of the pair that was made for the 401. */
  lemma ServedKey(cfg: Config, k: Kms, request: string, url: string, id: string, swk: Bytes)
    requires Inv(cfg, k.st) && ForKms(url) && QuarkOf(url) !in k.st.keys && Serves(k, request, id, swk)
    ensures var o := NpmLoadKey(cfg, k, request, url, 0); var pair := k.st.device.next;
            && o.ok && Inv(cfg, o.k.st) && Brought(k.keyReplies[1], o.k.st, url)
            && o.k.st.requests == k.st.requests && o.k.st.device.next == pair + 3
            && id in o.k.st.sessions && o.k.st.keys[QuarkOf(url)].session == o.k.st.sessions[id]
            && Listed(o.k.st, o.k.st.sessions[id]) && Deref(o.k.st, o.k.st.sessions[id]).name == "SGX"
            && Deref(o.k.st, o.k.st.sessions[id]).swk == swk
            && WrapMatches(o.k.st) && Wrapping(o.k.st.device) == Some(WrappingKey(PrivateHalf(pair), swk))
  {
    hide Inv, NpmLoadKey, FirstRound, ChallengeStands, SessionStands;
    RoundExact(cfg, k, request, url);
    RoundLeaves(cfg, k, request, url);
    SecondReply(cfg, k, request, url);
    RequestKnown(k.st, request, k.keyReplies[0].refusal, k.keyReplies[0].challengeLuck);
    KmsKeyIsListed(cfg, k, request, url);
  }

  lemma RequestKnown(st: State, request: string, r: Refusal, luck: ChallengeLuck)
    requires ChallengeStands(st, request, r, luck)
    ensures request in st.requests
  {
  }

  /** From the first 401 into the token: with such a server, loadkey returns TRUE exactly when the 200 carries a key that goes
      with the URI and the unwrap call succeeds. The fourth object that the call makes is then the key itself: the parts of
      the payload of the 200, an RSA or AES key as its algorithm says, unwrapped under the unwrapping of the swk of the 201
      under the private half of the challenge pair. */
  lemma KmsDelivers(cfg: Config, st: State, data: UriData, request: string, url: string, id: string, swk: Bytes,
                    keyReplies: seq<KeyReply>, sessionReplies: seq<SessionReply>, unwrap: bool)
    requires Inv(cfg, st) && !st.locked && UrlAccepted(url) && Registers(url) && QuarkOf(url) !in st.keys
    requires Serves(Facing(st.(locked := true), Some(data), request, keyReplies, sessionReplies), request, id, swk)
    ensures var k := Facing(st.(locked := true), Some(data), request, keyReplies, sessionReplies);
            var r := LoadUrl(cfg, st, url, Some(data), [KmsRun(cfg, k, request, url, unwrap)]);
            && (r.ok <==> unwrap && Loadable(keyReplies[1], data.isPrivate))
            && QuarkOf(url) in r.st.keys
            && (r.ok ==>
                  var made := st.device.next + 3;
                  made in r.st.device.objects
                  && r.st.device.objects[made] ==
                       ApplicationKey(WrappingKey(PrivateHalf(st.device.next), swk),
                                      KeyTransfer.Parse(keyReplies[1].transfer.payload.value).value,
                                      if keyReplies[1].transfer.algorithm == Some("RSA") then RsaKey else AesKey))
  {
    hide NpmLoadKey, LoadUrl, LoadToStm, Inv, WrapMatches, Registers, AfterCalls, UrlAccepted, Calls;
    hide ChallengeStands, SessionStands, NotAuthorized, SessionIds.IdOf, SessionIds.TokensOf;
    var k := Facing(st.(locked := true), Some(data), request, keyReplies, sessionReplies);
    var o := NpmLoadKey(cfg, k, request, url, 0).k;
    FacingSound(cfg, st, Some(data), request, keyReplies, sessionReplies);
    RegistersForKms(url);
    ServedKey(cfg, k, request, url, id, swk);
    TakenExactly(cfg, o.st, request, QuarkOf(url), unwrap);
    BroughtFits(keyReplies[1], o.st, request, url, unwrap);
    if LoadToStm(o.st, request, o.st.keys[QuarkOf(url)], unwrap).ok {
      BroughtIsTransferred(cfg, keyReplies[1], o.st, request, url, unwrap);
    }
    KmsRunIsKms(cfg, st.(locked := true), Some(data), request, url, keyReplies, sessionReplies, unwrap);
    LoadByKms(cfg, st, url, Some(data), KmsRun(cfg, k, request, url, unwrap), request, unwrap);
  }

  lemma RegistersForKms(url: string)
    requires Registers(url)
    ensures ForKms(url)
  {
  }

  lemma FacingSound(cfg: Config, st: State, data: Option<UriData>, request: string, keyReplies: seq<KeyReply>,
                    sessionReplies: seq<SessionReply>)
    requires Inv(cfg, st)
    ensures Inv(cfg, Facing(st.(locked := true), data, request, keyReplies, sessionReplies).st)
  {
    hide Inv;
    LocksApart(cfg, st, true);
    InvSound(cfg, st);
    DeviceApart(cfg, st.(locked := true), Facing(st.(locked := true), data, request, keyReplies, sessionReplies).st);
  }

  /** A load over one NPM that takes part and leaves the key in the table is the delivery of that key. */
  lemma LoadByKms(cfg: Config, st: State, url: string, data: Option<UriData>, run: NpmRun, request: string, unwrap: bool)
    requires UrlAccepted(url) && QuarkOf(url) !in st.keys && Engaged(run)
    requires run.request == request && run.unwrap == unwrap
    requires QuarkOf(url) in AfterCalls(cfg, st.(locked := true), data, run).keys
    ensures var r, mid := LoadUrl(cfg, st, url, data, [run]), AfterCalls(cfg, st.(locked := true), data, run);
            var taken := LoadToStm(mid, request, mid.keys[QuarkOf(url)], unwrap);
            r.ok == taken.ok && r.st.device == taken.st.device && r.st.keys == mid.keys
  {
    hide LoadToStm, Calls, UrlAccepted;
    var st1 := st.(locked := true);
    var o := TryNpm(cfg, st1, url, data, run);
    DeliverKeepsKeys(AfterCalls(cfg, st1, data, run), url, run);
    assert [run][1..] == [];
    assert WalkNpms(cfg, o.st, url, data, []) == Outcome(o.st, false);
  }
}
