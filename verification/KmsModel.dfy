/** The KMS network plug-in: challenge, session, key transfer, with at most one retry. npm/kms/src/intf.cpp:92-361. */
module KmsModel {
  import opened Strings
  import opened Cache
  import opened Token
  import opened AgentModel
  import SessionIds

  const KMS_TOKEN := "KMS"

  // ----- What the server may answer -----

  /** The decoded "challenge" field: the bytes of the nonce, and the text that names the session. */
  datatype ChallengeId = ChallengeId(nonce: Bytes, id: string)

  /** The JSON body of a 401, each field present or not. */
  datatype Refusal = Refusal(status: Option<string>, fault: Option<string>, href: Option<string>, method_: Option<string>,
                             stm: Option<string>, challenge: Option<ChallengeId>)

  /** The JSON body and the headers of a 200. */
  datatype Transfer = Transfer(id: Option<string>, algorithm: Option<string>, payload: Option<Bytes>, headers: seq<string>)

  /** The answer to a key request, or to a session request; `luck` fields tell how the agent's own calls fare. */
  datatype KeyReply =
    | NoAnswer
    | Unauthorized(refusal: Refusal, challengeLuck: ChallengeLuck)
    | Granted(transfer: Transfer, keyLuck: Luck)
    | OtherStatus(code: int)

  datatype SessionReply =
    | NoSessionAnswer
    | SessionMade(status: Option<string>, swk: Option<Bytes>, swkType: Option<string>, luck: Luck, unwrap: bool)
    | SessionRefused(code: int)

  /** What went out: a GET for a key, with the ids of all sessions in the table, or a POST for a session, with the STM and
      the challenge of the 401 and the quote of the token. */
  datatype Sent = KeyRequest(keyId: string, known: set<string>) | SessionRequest(stm: string, id: string, quote: Option<Quote>)

  /** The agent, what is left of the server's script, the requests sent, the callbacks made and the last key reply. */
  datatype Kms = Kms(st: State, keyReplies: seq<KeyReply>, sessionReplies: seq<SessionReply>, sent: seq<Sent>,
                     calls: seq<Callback>, last: KeyReply)

  datatype KmsOutcome = KmsOutcome(k: Kms, ok: bool)

  // ----- The protocol -----

  /** A server whose script is used up does not answer. */
  function NextKeyReply(k: Kms): (r: KeyReply) {
    if k.keyReplies == [] then NoAnswer else k.keyReplies[0]
  }

  function NextSessionReply(k: Kms): (r: SessionReply) {
    if k.sessionReplies == [] then NoSessionAnswer else k.sessionReplies[0]
  }

  /** The token of the URL that goes into the path of the request. */
  function KeyIdOf(url: string): (id: string) {
    var tokens := Split(url, ':');
    if |tokens| >= 2 then tokens[1] else ""
  }

  function TokenQuote(st: State): (quote: Option<Quote>) {
    if st.device.token.Some? then st.device.token.value.challenge else None
  }

  function SendKeyRequest(k: Kms, url: string): (r: Kms) {
    k.(keyReplies := if k.keyReplies == [] then [] else k.keyReplies[1..],
       sent := k.sent + [KeyRequest(KeyIdOf(url), k.st.sessions.Keys)], last := NextKeyReply(k))
  }

  function SendSessionRequest(k: Kms, stm: string, id: string): (r: Kms) {
    k.(sessionReplies := if k.sessionReplies == [] then [] else k.sessionReplies[1..],
       sent := k.sent + [SessionRequest(stm, id, TokenQuote(k.st))])
  }

  function CallBack(cfg: Config, k: Kms, c: Callback): (r: KmsOutcome) {
    var o := Call(cfg, k.st, c);
    KmsOutcome(k.(st := o.st, calls := k.calls + [c]), o.ok)
  }

  predicate Complete(r: Refusal) {
    r.href.Some? && r.method_.Some? && r.stm.Some? && r.challenge.Some?
  }

  function OrEmpty(b: Option<Bytes>): (r: Bytes) {
    if b.Some? then b.value else []
  }

  /** `start_session` */
  function StartSession(cfg: Config, k: Kms, request: string, r: Refusal, luck: ChallengeLuck): (o: KmsOutcome) {
    if !Complete(r) || r.method_.value != "post" then KmsOutcome(k, false)
    else
      var c := CallBack(cfg, k, OnChallenge(request, r.stm.value, r.challenge.value.nonce, luck));
      if !c.ok then c
      else
        var posted := SendSessionRequest(c.k, r.stm.value, r.challenge.value.id);
        match NextSessionReply(c.k)
        case SessionMade(status, swk, swkType, cacheLuck, unwrap) =>
          if status.None? || swkType.None? then KmsOutcome(posted, false)
          else
            CallBack(cfg, posted, OnSession(NewSession(request, r.stm.value, r.challenge.value.id, OrEmpty(swk),
                                                       swkType.value, cacheLuck, unwrap)))
        case _ => KmsOutcome(posted, false)
  }

  function KeyTypeOf(algorithm: string): (t: KeyType) {
    if algorithm == "RSA" then RsaKey else if algorithm == "AES" then AesKey else InvalidKey
  }

  /** The 200 branch of `__npm_loadkey`. A missing payload is stored as an empty buffer. */
  function AcceptKey(cfg: Config, k: Kms, url: string, t: Transfer, luck: Luck): (o: KmsOutcome) {
    var id := SessionIds.IdOf(SessionIds.TokensOf(t.headers));
    if t.id.None? || t.algorithm.None? || !id.Id? then KmsOutcome(k, false)
    else
      CallBack(cfg, k, OnKey(NewKey(url, KeyTypeOf(t.algorithm.value), Some(map[KEYDATA := OrEmpty(t.payload)]),
                                    Some(id.id), luck)))
  }

  predicate ForKms(url: string) {
    var tokens := Split(url, ':');
    |tokens| >= 1 && tokens[0] == KMS_TOKEN
  }

  /** `__npm_loadkey`, where `tries` is the counter of `loadkey_info` at entry. */
  function NpmLoadKey(cfg: Config, k: Kms, request: string, url: string, tries: nat): (o: KmsOutcome)
    decreases if tries > 1 then 0 else 2 - tries
  {
    if tries > 1 || !ForKms(url) then KmsOutcome(k, false)
    else
      var k1 := SendKeyRequest(k, url);
      match NextKeyReply(k)
      case NoAnswer => KmsOutcome(k1, false)
      case OtherStatus(_) => KmsOutcome(k1, false)
      case Granted(t, luck) => AcceptKey(cfg, k1, url, t, luck)
      case Unauthorized(r, luck) =>
        if r.status == Some("failure") && r.fault == Some("not-authorized") then
          var s := StartSession(cfg, k1, request, r, luck);
          if s.ok then NpmLoadKey(cfg, s.k, request, url, tries + 1) else KmsOutcome(s.k, false)
        else KmsOutcome(k1, false)
  }

  /** `npm_register` */
  predicate Registers(url: string) {
    var tokens := Split(url, ':');
    |tokens| >= 2 && tokens[0] == KMS_TOKEN && tokens[1] != ""
  }

  function KeyRequests(sent: seq<Sent>): (n: nat) {
    if sent == [] then 0 else KeyRequests(sent[1..]) + if sent[0].KeyRequest? then 1 else 0
  }

  function SessionRequests(sent: seq<Sent>): (n: nat) {
    if sent == [] then 0 else SessionRequests(sent[1..]) + if sent[0].SessionRequest? then 1 else 0
  }
}
