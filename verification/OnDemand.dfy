/** Loading a key by its PKCS#11 URI: C_OnDemand_KeyLoad (api-module/pkcs11/src/pkcs11-apimodule.cpp:257-308) on top of the
    key agent. */
module OnDemand {
  import opened Strings
  import opened Cache
  import opened Token
  import opened AgentModel
  import opened AgentLaws
  import opened AgentCache
  import opened AgentRuns
  import opened AgentLoads
  import opened AgentCalls
  import opened KeyAgent
  import KmsModel

  /** The fields of a URI that passed the checks of `apimodule_uri_to_uri_data`; its token label is always "KMS". */
  datatype Uri = Uri(keyId: string, keyLabel: string, text: string, data: UriData)

  /** A call: the URI, how setting up the token would go, what a search in the token's session would find, and what the
      NPMs would do. */
  datatype Demand = Demand(uri: Option<Uri>, first: Find, second: Find, session: bool, login: bool, search: Find,
                           runs: seq<NpmRun>)

  // ----- The URL that the agent is given -----

  function KeyUrl(u: Uri): (url: string) {
    Join(":", [KmsModel.KMS_TOKEN, u.keyId, u.keyLabel, u.text])
  }

  lemma {:induction false} PiecesOfConcat(a: string, b: string, sep: char)
    ensures Pieces(a + [sep] + b, sep) == Pieces(a, sep) + Pieces(b, sep)
  {
    var s := a + [sep] + b;
    if a == "" {
      assert s[1..] == b;
    } else {
      assert s[1..] == a[1..] + [sep] + b;
      PiecesOfConcat(a[1..], b, sep);
    }
  }

  lemma JoinOfCons(part: string, parts: seq<string>)
    requires parts != []
    ensures Join(":", [part] + parts) == part + [':'] + Join(":", parts)
  {
    assert ([part] + parts)[1..] == parts;
  }

  /** The first token of the URL is the prefix of the KMS plug-in, the second the key id up to its first colon. */
  lemma KeyUrlTokens(u: Uri)
    ensures var tokens := Split(KeyUrl(u), ':');
            |tokens| >= 4 && tokens[0] == KmsModel.KMS_TOKEN && tokens[1] == Pieces(u.keyId, ':')[0]
  {
    KeyUrlParts(u);
  }

  /** The URL spelled out, and its tokens, in which the colons of each part count too. */
  lemma KeyUrlParts(u: Uri)
    ensures KeyUrl(u) == "KMS" + [':'] + (u.keyId + [':'] + (u.keyLabel + [':'] + u.text))
    ensures Split(KeyUrl(u), ':') == ["KMS"] + Pieces(u.keyId, ':') + Pieces(u.keyLabel, ':') + Pieces(u.text, ':')
  {
    var rest := u.keyLabel + [':'] + u.text;
    JoinOfCons(u.keyLabel, [u.text]);
    JoinOfCons(u.keyId, [u.keyLabel, u.text]);
    JoinOfCons(KmsModel.KMS_TOKEN, [u.keyId, u.keyLabel, u.text]);
    assert [u.keyLabel] + [u.text] == [u.keyLabel, u.text];
    assert [u.keyId] + [u.keyLabel, u.text] == [u.keyId, u.keyLabel, u.text];
    assert [KmsModel.KMS_TOKEN] + [u.keyId, u.keyLabel, u.text] == [KmsModel.KMS_TOKEN, u.keyId, u.keyLabel, u.text];
    assert KeyUrl(u) == KmsModel.KMS_TOKEN + [':'] + (u.keyId + [':'] + rest);
    PiecesOfCons(KmsModel.KMS_TOKEN, u.keyId + [':'] + rest, ':');
    PiecesOfConcat(u.keyId, rest, ':');
    PiecesOfConcat(u.keyLabel, u.text, ':');
  }

  lemma SameCut(a: string, x: string, b: string, y: string)
    requires Free(a, ':') && Free(b, ':') && a + [':'] + x == b + [':'] + y
    ensures a == b && x == y
  {
    PiecesOfCons(a, x, ':');
    PiecesOfCons(b, y, ':');
    assert ([a] + Pieces(x, ':'))[0] == ([b] + Pieces(y, ':'))[0];
    assert (a + [':'] + x)[|a| + 1..] == x && (b + [':'] + y)[|b| + 1..] == y;
  }

  /** Two URIs without colons in id and label get the same URL, and with it the same table entry, only if they agree in id,
      label and text. */
  lemma KeyUrlInjective(u: Uri, v: Uri)
    requires Free(u.keyId, ':') && Free(u.keyLabel, ':') && Free(v.keyId, ':') && Free(v.keyLabel, ':')
    ensures KeyUrl(u) == KeyUrl(v) <==> u.keyId == v.keyId && u.keyLabel == v.keyLabel && u.text == v.text
  {
    KeyUrlParts(u);
    KeyUrlParts(v);
    if KeyUrl(u) == KeyUrl(v) {
      SameCut("KMS", u.keyId + [':'] + (u.keyLabel + [':'] + u.text), "KMS", v.keyId + [':'] + (v.keyLabel + [':'] + v.text));
      SameCut(u.keyId, u.keyLabel + [':'] + u.text, v.keyId, v.keyLabel + [':'] + v.text);
      SameCut(u.keyLabel, u.text, v.keyLabel, v.text);
    }
  }

  lemma FirstPiece(s: string, sep: char)
    ensures Pieces(s, sep)[0] == "" <==> s == "" || s[0] == sep
    ensures Pieces(s, sep)[0] == s <==> Free(s, sep)
  {
    if Free(s, sep) {
      PiecesOfFree(s, sep);
    } else {
      PiecesAreFree(s, sep);
    }
  }

  /** The agent and the KMS plug-in accept the URL exactly when the key id is not empty and does not begin with a colon, and
      the plug-in asks the server for this key id exactly when the id has no colon at all. */
  lemma KeyUrlIsForKms(u: Uri)
    ensures UrlAccepted(KeyUrl(u)) <==> u.keyId != "" && u.keyId[0] != ':'
    ensures KmsModel.Registers(KeyUrl(u)) <==> u.keyId != "" && u.keyId[0] != ':'
    ensures KmsModel.ForKms(KeyUrl(u))
    ensures KmsModel.KeyIdOf(KeyUrl(u)) == u.keyId <==> Free(u.keyId, ':')
  {
    KeyUrlTokens(u);
    FirstPiece(u.keyId, ':');
  }

  // ----- The call -----

  /** What `init_apimodule_token` would return, asked not to create a token. */
  function FoundToken(d: Demand): (t: TokenInit) {
    if d.first == Present && d.second == Present && d.session && d.login then CachedToken(true)
    else if d.first == Present && d.second == Absent then CachedToken(false)
    else NoToken
  }

  /** A search in a session that was never opened fails. */
  function Searched(t: Handles, d: Demand): (f: Find) {
    if t.session then d.search else FindFailed
  }

  /** The state once the token is looked up: the one in the token table, or one that is found and put there. */
  function Asked(st: State, d: Demand): (r: State) {
    if d.uri.None? then st else st.(device := SetUp(st.device, FoundToken(d), d.uri.value.data.pin))
  }

  /** The agent is asked if there is no token, or its PIN matches and its session does not show the object. */
  predicate AsksAgent(st: State, d: Demand) {
    && d.uri.Some?
    && var t := Asked(st, d).device.token;
       t.None? || (t.value.pin == d.uri.value.data.pin && Searched(t.value, d) == Absent)
  }

  function Demanded(cfg: Config, st: State, d: Demand): (r: Outcome) {
    if d.uri.None? then Outcome(st, false)
    else
      var st1 := Asked(st, d);
      var t := st1.device.token;
      if AsksAgent(st, d) then LoadUrl(cfg, st1, KeyUrl(d.uri.value), Some(d.uri.value.data), d.runs)
      else Outcome(st1, t.Some? && t.value.pin == d.uri.value.data.pin && Searched(t.value, d) == Present)
  }

  /** The token after the look-up: one that is there stays; a missing one is set up, with the PIN of the URI, if it is found
      and either opened and logged in to, or gone at the second look. Nothing else changes. */
  lemma LookedUp(st: State, d: Demand)
    requires d.uri.Some?
    ensures var pin := d.uri.value.data.pin;
            Asked(st, d) == st.(device := st.device.(token :=
              if st.device.token.Some? then st.device.token
              else if d.first == Present && d.second == Present && d.session && d.login
              then Some(Handles(true, pin, 0, 0, 0, None))
              else if d.first == Present && d.second == Absent then Some(Handles(false, pin, 0, 0, 0, None))
              else None))
  {
  }

  /** The whole call by its fields, with t the token after the look-up. An argument that does not parse fails. Without a
      token the call is the load. With one it fails, and changes nothing more, if the PIN is another one, the session is
      missing or the search fails; it succeeds without the agent if the search shows the object, and is the load if the
      search shows none. */
  lemma DemandCases(cfg: Config, st: State, d: Demand)
    ensures d.uri.None? ==> Demanded(cfg, st, d) == Outcome(st, false)
    ensures d.uri.Some? ==>
              var asked := Asked(st, d); var t := asked.device.token; var u := d.uri.value;
              Demanded(cfg, st, d) ==
                if t.None? then LoadUrl(cfg, asked, KeyUrl(u), Some(u.data), d.runs)
                else if t.value.pin != u.data.pin || !t.value.session then Outcome(asked, false)
                else match d.search
                     case FindFailed => Outcome(asked, false)
                     case Present => Outcome(asked, true)
                     case Absent => LoadUrl(cfg, asked, KeyUrl(u), Some(u.data), d.runs)
  {
  }

  /** CKR_OK means that the token's session shows the object, or that the key was in the agent's table, or that an STM took
      it in this very call; a wrong pin or a failed search hides all three. */
  lemma DemandResult(cfg: Config, st: State, d: Demand)
    requires !st.locked && d.uri.Some?
    ensures var r := Demanded(cfg, st, d); var url := KeyUrl(d.uri.value);
            var asked := Asked(st, d); var t := asked.device.token;
            && (r.ok <==>
                  && (t.None? || (t.value.pin == d.uri.value.data.pin && Searched(t.value, d) != FindFailed))
                  && ((t.Some? && Searched(t.value, d) == Present)
                      || (UrlAccepted(url)
                          && (QuarkOf(url) in st.keys
                              || Delivered(cfg, asked.(locked := true),
                                           LoadEvents(cfg, asked, url, Some(d.uri.value.data), d.runs), url)))))
            && (r.ok && !(t.Some? && Searched(t.value, d) == Present) ==> QuarkOf(url) in r.st.keys)
  {
    LoadResult(cfg, Asked(st, d), KeyUrl(d.uri.value), Some(d.uri.value.data), d.runs);
  }

  lemma AskedKeepsInv(cfg: Config, st: State, d: Demand)
    requires Inv(cfg, st)
    ensures Inv(cfg, Asked(st, d))
  {
    DeviceApart(cfg, st, Asked(st, d));
  }

  /** If the agent is asked, the events of its load are tame. */
  predicate TameDemand(cfg: Config, st: State, d: Demand) {
    AsksAgent(st, d) ==>
      TameRun(cfg, Asked(st, d).(locked := true),
              LoadEvents(cfg, Asked(st, d), KeyUrl(d.uri.value), Some(d.uri.value.data), d.runs))
  }

  lemma OwnDemandTame(cfg: Config, st: State, d: Demand)
    requires forall j :: 0 <= j < |d.runs| ==> OwnRequest(d.runs[j])
    ensures TameDemand(cfg, st, d)
  {
    if d.uri.Some? {
      OwnLoadTame(cfg, Asked(st, d), Load(KeyUrl(d.uri.value), Some(d.uri.value.data), d.runs));
    }
  }

  lemma DemandKeepsInv(cfg: Config, st: State, d: Demand)
    requires Inv(cfg, st) && !st.locked && TameDemand(cfg, st, d)
    ensures Inv(cfg, Demanded(cfg, st, d).st) && !Demanded(cfg, st, d).st.locked
  {
    AskedKeepsInv(cfg, st, d);
    if AsksAgent(st, d) {
      LoadKeepsInv(cfg, Asked(st, d), Load(KeyUrl(d.uri.value), Some(d.uri.value.data), d.runs));
    }
  }

  // ----- A token that was cached without a session -----

  predicate LacksSession(st: State) {
    st.device.token.Some? && !st.device.token.value.session
  }

  /** A call caches such a token exactly when it finds the token at first and misses it at the second look
      (utils.c:418-422). The call fails, and the agent is not asked. */
  lemma CachesWithoutSession(cfg: Config, st: State, d: Demand)
    requires st.device.token.None? && d.uri.Some?
    ensures LacksSession(Asked(st, d)) <==> d.first == Present && d.second == Absent
    ensures LacksSession(Asked(st, d)) ==> Demanded(cfg, st, d) == Outcome(Asked(st, d), false)
  {
  }

  /** What may follow: further calls, and anything else that happens to the agent. */
  datatype Act = Ask(d: Demand) | Meanwhile(e: Event)

  function ActStep(cfg: Config, st: State, a: Act): (r: State) {
    match a
    case Ask(d) => Demanded(cfg, st, d).st
    case Meanwhile(e) => Step(cfg, st, e).st
  }

  /** No call of the sequence succeeds or changes anything. */
  predicate NoneServed(cfg: Config, st: State, acts: seq<Act>)
    decreases |acts|
  {
    acts == []
    || ((acts[0].Ask? ==> Demanded(cfg, st, acts[0].d) == Outcome(st, false))
        && NoneServed(cfg, ActStep(cfg, st, acts[0]), acts[1..]))
  }

  /** The token keeps its PIN, and its session or the lack of one. */
  predicate SameToken(st: State, r: State) {
    && st.device.token.Some? && r.device.token.Some?
    && r.device.token.value.session == st.device.token.value.session && r.device.token.value.pin == st.device.token.value.pin
  }

  lemma SettingKeepsToken(st: State, request: string, p: Ptr, unwrap: bool)
    requires st.device.token.Some?
    ensures SameToken(st, SetSession(st, request, p, unwrap).st)
  {
  }

  lemma InstallingKeepsDevice(cfg: Config, st: State, n: NewSession)
    ensures Installed(cfg, st, n).device == st.device
  {
    hide MakeWay, UpdateSwk;
    MakeWayFields(cfg, st, n);
    UpdateKeepsDevice(MakeWay(cfg, st, n.stm, n.id), Target(st, n), n.swk);
  }

  lemma SessionCallKeepsToken(cfg: Config, st: State, n: NewSession)
    requires st.device.token.Some?
    ensures SameToken(st, CreateSession(cfg, st, n).st)
  {
    hide Installed, SetSession, Admitted, CacheSession;
    InstallingKeepsDevice(cfg, st, n);
    SettingKeepsToken(StoreSession(cfg, Installed(cfg, st, n), Target(st, n), n.luck), n.request, Target(st, n), n.unwrap);
  }

  lemma UpdateKeepsDevice(st: State, p: Ptr, swk: Bytes)
    ensures UpdateSwk(st, p, swk).device == st.device
  {
  }

  lemma StepKeepsToken(cfg: Config, st: State, e: Event)
    requires st.device.token.Some?
    ensures SameToken(st, Step(cfg, st, e).st)
  {
    hide CreateSession, CreateKey, KeyCachedAs, HandOver;
    if e.Do? && e.callback.OnSession? {
      SessionCallKeepsToken(cfg, st, e.callback.session);
    } else if e.Do? && e.callback.OnKey? {
      CreateKeyEffect(cfg, st, e.callback.key);
    }
  }

  lemma {:induction false} RunKeepsToken(cfg: Config, st: State, es: seq<Event>)
    requires st.device.token.Some?
    ensures SameToken(st, Run(cfg, st, es))
    decreases |es|
  {
    if es != [] {
      StepKeepsToken(cfg, st, es[0]);
      RunKeepsToken(cfg, Step(cfg, st, es[0]).st, es[1..]);
    }
  }

  // ----- A token that a challenge set up -----

  /** A token that a load through the plug-in sets up serves later calls under the PIN of the very URI of that load, whatever
      happens in between: with this PIN and a session a call goes by its search alone, and with any other it fails. */
  lemma ChallengeServesPin(cfg: Config, st: State, request: string, stm: string, nonce: Bytes, luck: ChallengeLuck,
                           es: seq<Event>, d: Demand)
    requires st.device.token.None? && luck.setUp == CachedToken(true)
    requires stm in st.stms && request in st.requests && st.requests[request].Some? && d.uri.Some?
    ensures var later := Run(cfg, Call(cfg, st, OnChallenge(request, stm, nonce, luck)).st, es);
            Demanded(cfg, later, d) ==
              if d.uri.value.data.pin != st.requests[request].value.pin then Outcome(later, false)
              else match d.search
                   case FindFailed => Outcome(later, false)
                   case Present => Outcome(later, true)
                   case Absent => LoadUrl(cfg, later, KeyUrl(d.uri.value), Some(d.uri.value.data), d.runs)
  {
    hide Call, Run, Demanded, LoadUrl;
    var owned := Call(cfg, st, OnChallenge(request, stm, nonce, luck)).st;
    ChallengeCallSetsUp(cfg, st, request, stm, nonce, luck);
    RunKeepsToken(cfg, owned, es);
    LookedUp(Run(cfg, owned, es), d);
    DemandCases(cfg, Run(cfg, owned, es), d);
  }

  /** Once such a token is in the table, it stays, and every further call fails and leaves the state alone, whatever else
      happens in between: nothing but the set-up of a token ever gives it a session. */
  lemma {:induction false} TokenWithoutSessionBlocks(cfg: Config, st: State, acts: seq<Act>)
    requires LacksSession(st)
    ensures NoneServed(cfg, st, acts)
    decreases |acts|
  {
    if acts != [] {
      if acts[0].Meanwhile? {
        StepKeepsToken(cfg, st, acts[0].e);
      }
      TokenWithoutSessionBlocks(cfg, ActStep(cfg, st, acts[0]), acts[1..]);
    }
  }

  function TwoLooks(second: Find): (d: Demand) {
    Demand(Some(Uri("k", "l", "u", UriData(true, "1234"))), Present, second, true, true, Present, [])
  }

  /** Two calls, the first of which sees the token come and go: the second fails although the token and the key are there,
      where the same call on an agent without a token succeeds. */
  lemma TokenWithoutSessionExample(cfg: Config, st: State)
    requires st.device.token.None?
    ensures var r := Demanded(cfg, st, TwoLooks(Absent));
            && !r.ok && LacksSession(r.st)
            && Demanded(cfg, r.st, TwoLooks(Present)) == Outcome(r.st, false)
            && Demanded(cfg, st, TwoLooks(Present)).ok
  {
    CachesWithoutSession(cfg, st, TwoLooks(Absent));
    TokenWithoutSessionBlocks(cfg, Demanded(cfg, st, TwoLooks(Absent)).st, [Ask(TwoLooks(Present))]);
  }

  /** C_OnDemand_KeyLoad */
  method OnDemandKeyLoad(agent: Agent, d: Demand) returns (ok: bool)
    requires agent.Valid() && !agent.locked
    modifies agent.repr
    ensures agent.Valid() && fresh(agent.repr - old(agent.repr))
    ensures Outcome(agent.Abs(), ok) == Demanded(agent.cfg, old(agent.Abs()), d)
  {
    hide Agent.Abs, Agent.Valid, AgentModel.LoadUrl, KeyUrl;
    ok := false;
    agent.TokenKnown();
    if d.uri.Some? {
      agent.InRepr();
      var data := d.uri.value.data;
      if agent.device.token == null {
        var t := InitApimoduleToken(d.first, false, false, d.second, d.session, d.login);
        if t.CachedToken? {
          agent.CacheToken(t, data.pin);
          agent.TokenKnown();
        }
      }
      var token := agent.device.token;
      var search := if token != null && token.session then d.search else FindFailed;
      if token == null || (token.pin == data.pin && search == Absent) {
        ok := agent.LoadUrl(KeyUrl(d.uri.value), Some(data), d.runs);
      } else {
        ok := token.pin == data.pin && search == Present;
      }
    }
  }
}
