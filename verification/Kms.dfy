/** The KMS plug-in in place, working on the agent's structures: npm/kms/src/intf.cpp:92-361 and 424-433. */
module Kms {
  import opened Strings
  import opened Cache
  import opened Token
  import opened AgentModel
  import opened KeyAgent
  import KmsModel
  import SessionIds

  /** `loadkey_info` */
  class LoadKeyInfo {
    var tries: nat
    const request: string
    const url: string

    constructor (request: string, url: string)
      ensures tries == 0 && this.request == request && this.url == url
    {
      this.request, this.url, tries := request, url, 0;
    }
  }

  /** The plug-in between the agent and a server that answers by a script. */
  class Plugin {
    const agent: Agent
    var keyReplies: seq<KmsModel.KeyReply>
    var sessionReplies: seq<KmsModel.SessionReply>
    var sent: seq<KmsModel.Sent>
    var last: KmsModel.KeyReply
    ghost var calls: seq<Callback>

    constructor (agent: Agent, keyReplies: seq<KmsModel.KeyReply>, sessionReplies: seq<KmsModel.SessionReply>)
      requires agent.Valid()
      ensures Valid() && this.agent == agent
      ensures Abs() == KmsModel.Kms(agent.Abs(), keyReplies, sessionReplies, [], [], KmsModel.NoAnswer)
    {
      this.agent, this.keyReplies, this.sessionReplies := agent, keyReplies, sessionReplies;
      sent, calls, last := [], [], KmsModel.NoAnswer;
    }

    ghost predicate Valid()
      reads this, agent, agent.cache, agent.device`token, set s | s in agent.stms :: agent.stms[s]
    {
      agent.Valid() && this !in agent.repr
    }

    ghost function Abs(): (k: KmsModel.Kms)
      reads this, agent, agent.cache, agent.device, agent.device.token
      reads set p | p in agent.heap :: agent.heap[p], set s | s in agent.stms :: agent.stms[s]
      reads set t | t in agent.keys :: agent.keys[t]
    {
      KmsModel.Kms(agent.Abs(), keyReplies, sessionReplies, sent, calls, last)
    }

    lemma KnownSessions()
      ensures Abs().st.sessions.Keys == agent.sessions.Keys
    {
    }

    /** A key request, with the ids of all sessions in its header. */
    method SendKeyRequest(url: string) returns (reply: KmsModel.KeyReply)
      requires Valid()
      modifies this
      ensures Valid() && reply == KmsModel.NextKeyReply(old(Abs())) && Abs() == KmsModel.SendKeyRequest(old(Abs()), url)
    {
      hide Agent.Abs, Agent.Valid;
      KnownSessions();
      reply := KmsModel.NoAnswer;
      if keyReplies != [] {
        reply := keyReplies[0];
        keyReplies := keyReplies[1..];
      }
      sent := sent + [KmsModel.KeyRequest(KmsModel.KeyIdOf(url), agent.sessions.Keys)];
      last := reply;
    }

    method SendSessionRequest(stm: string, id: string) returns (reply: KmsModel.SessionReply)
      requires Valid()
      modifies this
      ensures Valid() && reply == KmsModel.NextSessionReply(old(Abs()))
      ensures Abs() == KmsModel.SendSessionRequest(old(Abs()), stm, id)
    {
      hide Agent.Abs, Agent.Valid;
      agent.TokenKnown();
      var quote := if agent.device.token == null then None else agent.device.token.challenge;
      reply := KmsModel.NoSessionAnswer;
      if sessionReplies != [] {
        reply := sessionReplies[0];
        sessionReplies := sessionReplies[1..];
      }
      sent := sent + [KmsModel.SessionRequest(stm, id, quote)];
    }

    method CallBack(c: Callback) returns (ok: bool)
      requires Valid()
      modifies this`calls, agent.repr
      ensures Valid() && fresh(agent.repr - old(agent.repr))
      ensures KmsModel.KmsOutcome(Abs(), ok) == KmsModel.CallBack(agent.cfg, old(Abs()), c)
    {
      hide Agent.Abs, Agent.Valid;
      ok := agent.Call(c);
      calls := calls + [c];
    }

    /** `start_session` */
    method StartSession(request: string, r: KmsModel.Refusal, luck: ChallengeLuck) returns (ok: bool)
      requires Valid()
      modifies this, agent.repr
      ensures Valid() && fresh(agent.repr - old(agent.repr))
      ensures KmsModel.KmsOutcome(Abs(), ok) == KmsModel.StartSession(agent.cfg, old(Abs()), request, r, luck)
    {
      hide Abs, Valid;
      ok := false;
      if KmsModel.Complete(r) && r.method_.value == "post" {
        ok := CallBack(OnChallenge(request, r.stm.value, r.challenge.value.nonce, luck));
        if ok {
          var reply := SendSessionRequest(r.stm.value, r.challenge.value.id);
          ok := false;
          match reply {
            case SessionMade(status, swk, swkType, cacheLuck, unwrap) =>
              if status.Some? && swkType.Some? {
                ok := CallBack(OnSession(NewSession(request, r.stm.value, r.challenge.value.id, KmsModel.OrEmpty(swk),
                                                    swkType.value, cacheLuck, unwrap)));
              }
            case _ =>
          }
        }
      }
    }

    /** The 200 branch of `__npm_loadkey`. */
    method AcceptKey(url: string, t: KmsModel.Transfer, luck: Luck) returns (ok: bool)
      requires Valid()
      modifies this, agent.repr
      ensures Valid() && fresh(agent.repr - old(agent.repr))
      ensures KmsModel.KmsOutcome(Abs(), ok) == KmsModel.AcceptKey(agent.cfg, old(Abs()), url, t, luck)
    {
      hide Abs, Valid;
      ok := false;
      var tokens := SessionIds.FindTokens(t.headers);
      var id := SessionIds.IdOf(tokens);
      if t.id.Some? && t.algorithm.Some? && id.Id? {
        ok := CallBack(OnKey(NewKey(url, KmsModel.KeyTypeOf(t.algorithm.value), Some(map[KEYDATA := KmsModel.OrEmpty(t.payload)]),
                                    Some(id.id), luck)));
      }
    }

    /** `__npm_loadkey`: the counter in `info` is what stops the recursion. */
    method LoadKey(info: LoadKeyInfo) returns (ok: bool)
      requires Valid() && info !in agent.repr
      modifies this, info, agent.repr
      ensures Valid() && fresh(agent.repr - old(agent.repr))
      ensures info.tries <= if old(info.tries) > 1 then old(info.tries) else 2
      ensures KmsModel.KmsOutcome(Abs(), ok) ==
                KmsModel.NpmLoadKey(agent.cfg, old(Abs()), info.request, info.url, old(info.tries))
      decreases if info.tries > 1 then 0 else 2 - info.tries
    {
      hide Abs, Valid, KmsModel.StartSession, KmsModel.AcceptKey;
      ok := false;
      if info.tries > 1 {
        return;
      }
      info.tries := info.tries + 1;
      if KmsModel.ForKms(info.url) {
        var reply := SendKeyRequest(info.url);
        match reply {
          case Unauthorized(r, luck) =>
            if r.status == Some("failure") && r.fault == Some("not-authorized") {
              var started := StartSession(info.request, r, luck);
              if started {
                ok := LoadKey(info);
              }
            }
          case Granted(t, luck) =>
            ok := AcceptKey(info.url, t, luck);
          case _ =>
        }
      }
    }

    /** `npm_key_load` */
    method KeyLoad(request: string, url: string) returns (ok: bool)
      requires Valid()
      modifies this, agent.repr
      ensures Valid() && fresh(agent.repr - old(agent.repr))
      ensures KmsModel.KmsOutcome(Abs(), ok) == KmsModel.NpmLoadKey(agent.cfg, old(Abs()), request, url, 0)
    {
      hide Abs, Valid, KmsModel.NpmLoadKey;
      var info := new LoadKeyInfo(request, url);
      ok := LoadKey(info);
    }
  }
}
