/** Invariants of the key agent over whole runs: any NPM, any sequence of its callbacks, any sequence of loads. */
module AgentRuns {
  import opened Strings
  import opened Cache
  import opened Token
  import opened AgentModel
  import opened AgentLaws
  import opened AgentCache

  // ----- Runs of events -----

  /** What happens to the agent while loads are under way: a request is registered and dropped, an NPM makes a callback
      and the key of a URL is handed to its STM. */
  datatype Event =
    | Open(request: string, data: Option<UriData>)
    | Close(request: string)
    | Do(callback: Callback)
    | Hand(request: string, url: string, unwrap: bool)

  function Step(cfg: Config, st: State, e: Event): (r: Outcome) {
    match e
    case Open(request, data) => Outcome(st.(requests := st.requests[request := data]), true)
    case Close(request) => Outcome(st.(requests := st.requests - {request}), true)
    case Do(c) => Call(cfg, st, c)
    case Hand(request, url, unwrap) =>
      if QuarkOf(url) in st.keys then LoadToStm(st, request, st.keys[QuarkOf(url)], unwrap) else Outcome(st, false)
  }

  function Run(cfg: Config, st: State, events: seq<Event>): (r: State)
    decreases |events|
  {
    if events == [] then st else Run(cfg, Step(cfg, st, events[0]).st, events[1..])
  }

  lemma {:induction false} RunConcat(cfg: Config, st: State, a: seq<Event>, b: seq<Event>)
    ensures Run(cfg, st, a + b) == Run(cfg, Run(cfg, st, a), b)
    decreases |a|
  {
    hide Step;
    if a == [] {
      assert a + b == b;
    } else {
      RunConcat(cfg, Step(cfg, st, a[0]).st, a[1..], b);
      assert (a + b)[0] == a[0] && (a + b)[1..] == a[1..] + b;
    }
  }

  // ----- The invariant -----

  predicate Inv(cfg: Config, st: State) {
    && Wired(st) && Current(st)
    && Sound(st.db) && DeviceSound(st.device)
    && (cfg.cascade == AsMeant ==> Bound(st))
  }

  /** A well-behaved event: sessions are created under a registered request, and a session that is set directly is one of
      the table. No other demand is made on an NPM. */
  predicate Tame(st: State, e: Event) {
    (e.Do? && e.callback.OnSession? ==> e.callback.session.request in st.requests)
    && (e.Do? && e.callback.OnSetSession? && e.callback.request in st.requests && e.callback.p in st.heap ==>
          Listed(st, e.callback.p))
  }

  predicate TameRun(cfg: Config, st: State, events: seq<Event>)
    decreases |events|
  {
    events == [] || (Tame(st, events[0]) && TameRun(cfg, Step(cfg, st, events[0]).st, events[1..]))
  }

  /** What no event ever undoes. */
  ghost predicate Onward(st: State, r: State) {
    && r.stms.Keys == st.stms.Keys
    && r.locked == st.locked
    && Grows(st.device, r.device)
    && (forall p :: p in st.heap ==> p in r.heap && r.heap[p] == st.heap[p].(swk := r.heap[p].swk, cacheId := r.heap[p].cacheId))
  }

  // ----- One event -----

  lemma SetSessionWired(st: State, request: string, p: Ptr, unwrap: bool)
    requires Wired(st) && p in st.heap
    ensures Wired(SetSession(st, request, p, unwrap).st)
  {
  }

  lemma SetSessionKeepsCurrent(st: State, request: string, p: Ptr, unwrap: bool)
    requires Wired(st) && Current(st) && p in st.heap
    requires request !in st.requests || Listed(st, p)
             || forall id :: id in st.sessions ==> st.heap[st.sessions[id]].name != st.heap[p].name
    ensures Current(SetSession(st, request, p, unwrap).st)
  {
  }

  lemma SetSessionBreaksCurrent(st: State, request: string, p: Ptr, unwrap: bool, id: string)
    requires Wired(st) && Current(st) && p in st.heap && request in st.requests && !Listed(st, p)
    requires id in st.sessions && st.heap[st.sessions[id]].name == st.heap[p].name
    ensures !Current(SetSession(st, request, p, unwrap).st)
  {
    var r := SetSession(st, request, p, unwrap).st;
    assert st.sessions[id] != p;
    assert r.stms[st.heap[p].name] == Some(p);
  }

  /** Setting a session directly, exactly: the table stays current unless a session outside it takes over an STM that has a
      session in it. */
  lemma SetSessionCurrentExact(st: State, request: string, p: Ptr, unwrap: bool)
    requires Wired(st) && Current(st) && p in st.heap
    ensures Current(SetSession(st, request, p, unwrap).st) <==>
              request !in st.requests || Listed(st, p)
              || forall id :: id in st.sessions ==> st.heap[st.sessions[id]].name != st.heap[p].name
  {
    if request in st.requests && !Listed(st, p) && exists id :: id in st.sessions && st.heap[st.sessions[id]].name == st.heap[p].name {
      var id :| id in st.sessions && st.heap[st.sessions[id]].name == st.heap[p].name;
      SetSessionBreaksCurrent(st, request, p, unwrap, id);
    } else {
      SetSessionKeepsCurrent(st, request, p, unwrap);
    }
  }

  lemma SetSessionInv(cfg: Config, st: State, request: string, p: Ptr, unwrap: bool)
    requires Inv(cfg, st) && p in st.heap && (request in st.requests ==> Listed(st, p))
    ensures Inv(cfg, SetSession(st, request, p, unwrap).st)
    ensures Onward(st, SetSession(st, request, p, unwrap).st)
  {
    SetSessionWired(st, request, p, unwrap);
    SetSessionKeepsCurrent(st, request, p, unwrap);
    var s := Deref(st, p);
    if s.name in st.stms && request in st.requests {
      WrappingKeyIsSet(st.device, s.name, st.requests[request], s.swk, unwrap);
    }
  }

  lemma CreatedOnward(cfg: Config, st: State, n: NewSession)
    requires Wired(st) && DeviceSound(st.device) && n.stm in st.stms
    ensures Onward(st, Created(cfg, st, n)) && DeviceSound(Created(cfg, st, n).device)
  {
    CreatedTables(cfg, st, n);
    RenewedNames(st, n);
    var s := Renewed(st, n);
    if s.name in st.stms && n.request in st.requests {
      WrappingKeyIsSet(st.device, s.name, st.requests[n.request], s.swk, n.unwrap);
    }
  }

  lemma CreateSessionInv(cfg: Config, st: State, n: NewSession)
    requires Inv(cfg, st) && n.request in st.requests
    ensures Inv(cfg, CreateSession(cfg, st, n).st)
    ensures Onward(st, CreateSession(cfg, st, n).st)
  {
    CreateSessionEffect(cfg, st, n);
    if Admitted(st, n) {
      CreatedWired(cfg, st, n);
      CreatedCurrent(cfg, st, n);
      CreatedSound(cfg, st, n);
      CreatedOnward(cfg, st, n);
      if cfg.cascade == AsMeant {
        CreatedBoundAsMeant(cfg, st, n);
      }
    }
  }

  lemma CreateKeyInv(cfg: Config, st: State, n: NewKey)
    requires Inv(cfg, st)
    ensures Inv(cfg, CreateKey(cfg, st, n).st)
    ensures Onward(st, CreateKey(cfg, st, n).st)
  {
    CreateKeyEffect(cfg, st, n);
    CreateKeySound(cfg, st, n);
    var r := CreateKey(cfg, st, n).st;
    CreateKeyWired(cfg, st, n);
    if cfg.cascade == AsMeant {
      CreateKeyBound(cfg, st, n);
    }
  }

  lemma CreateKeyWired(cfg: Config, st: State, n: NewKey)
    requires Wired(st)
    ensures Wired(CreateKey(cfg, st, n).st)
  {
    CreateKeyEffect(cfg, st, n);
  }

  /** A new key belongs to a session of the table. */
  lemma CreateKeyBound(cfg: Config, st: State, n: NewKey)
    requires Wired(st) && Bound(st)
    ensures Bound(CreateKey(cfg, st, n).st)
  {
    CreateKeyEffect(cfg, st, n);
  }

  lemma ChallengeInv(cfg: Config, st: State, request: string, stm: string, nonce: Bytes, luck: ChallengeLuck)
    requires Inv(cfg, st)
    ensures Inv(cfg, TakeChallenge(st, request, stm, nonce, luck).st)
    ensures Onward(st, TakeChallenge(st, request, stm, nonce, luck).st)
  {
    hide GetChallenge;
    if stm in st.stms && request in st.requests {
      ChallengeLeavesWrapping(st.device, stm, st.requests[request], nonce, luck);
    }
  }

  lemma LoadToStmDevice(st: State, request: string, k: Key, unwrap: bool)
    requires DeviceSound(st.device)
    ensures var r := LoadToStm(st, request, k, unwrap).st;
            && r == st.(device := r.device) && DeviceSound(r.device) && Grows(st.device, r.device)
            && Wrapping(r.device) == Wrapping(st.device) && ChallengeKey(r.device) == ChallengeKey(st.device)
  {
    var d := HandOver(st, request, k);
    if d.Some? {
      LoadedUnderWrapping(st.device, d.value.stm, d.value.data, d.value.parts, d.value.typ, unwrap);
    }
  }

  lemma DeviceApart(cfg: Config, st: State, r: State)
    requires Inv(cfg, st) && DeviceSound(r.device)
    requires r == st.(device := r.device, requests := r.requests)
    ensures Inv(cfg, r)
  {
  }

  /** Every tame event keeps the invariant. */
  lemma StepKeepsInv(cfg: Config, st: State, e: Event)
    requires Inv(cfg, st) && Tame(st, e)
    ensures Inv(cfg, Step(cfg, st, e).st)
    ensures Onward(st, Step(cfg, st, e).st)
  {
    match e
    case Open(_, _) => DeviceApart(cfg, st, Step(cfg, st, e).st);
    case Close(_) => DeviceApart(cfg, st, Step(cfg, st, e).st);
    case Hand(request, url, unwrap) =>
      if QuarkOf(url) in st.keys {
        LoadToStmDevice(st, request, st.keys[QuarkOf(url)], unwrap);
        DeviceApart(cfg, st, Step(cfg, st, e).st);
      }
    case Do(c) =>
      match c {
        case OnSession(n) => CreateSessionInv(cfg, st, n);
        case OnKey(n) => CreateKeyInv(cfg, st, n);
        case OnChallenge(request, stm, nonce, luck) => ChallengeInv(cfg, st, request, stm, nonce, luck);
        case OnSetSession(request, p, unwrap) =>
          if p in st.heap {
            SetSessionInv(cfg, st, request, p, unwrap);
          }
      }
  }

  lemma OnwardTransitive(a: State, b: State, c: State)
    requires Onward(a, b) && Onward(b, c)
    ensures Onward(a, c)
  {
    GrowsTransitive(a.device, b.device, c.device);
  }

  /** And so does every tame run. */
  lemma {:induction false} RunKeepsInv(cfg: Config, st: State, events: seq<Event>)
    requires Inv(cfg, st) && TameRun(cfg, st, events)
    ensures Inv(cfg, Run(cfg, st, events))
    ensures Onward(st, Run(cfg, st, events))
    decreases |events|
  {
    if events != [] {
      StepKeepsInv(cfg, st, events[0]);
      RunKeepsInv(cfg, Step(cfg, st, events[0]).st, events[1..]);
      OnwardTransitive(st, Step(cfg, st, events[0]).st, Run(cfg, st, events));
    }
  }

  lemma OnlyDevice(cfg: Config, st: State, e: Event)
    requires !e.Do? || e.callback.OnChallenge?
    ensures var r := Step(cfg, st, e).st; r == st.(device := r.device, requests := r.requests)
  {
  }

  /** Any event at all leaves the tables wired up. */
  lemma StepKeepsWired(cfg: Config, st: State, e: Event)
    requires Wired(st)
    ensures Wired(Step(cfg, st, e).st)
  {
    if !e.Do? || e.callback.OnChallenge? {
      OnlyDevice(cfg, st, e);
    } else {
      match e.callback
      case OnSession(n) =>
        CreateSessionEffect(cfg, st, n);
        if Admitted(st, n) {
          CreatedWired(cfg, st, n);
        }
      case OnKey(n) => CreateKeyWired(cfg, st, n);
      case OnSetSession(request, p, unwrap) =>
        if p in st.heap {
          SetSessionWired(st, request, p, unwrap);
        }
      case _ =>
    }
  }

  /** Wrapping key types stay known along every run, tame or not. */
  lemma StepKeepsTypes(cfg: Config, st: State, e: Event)
    requires PointersLive(st) && TypesKnown(st)
    ensures TypesKnown(Step(cfg, st, e).st)
  {
    if e.Do? && e.callback.OnSession? {
      CreateSessionEffect(cfg, st, e.callback.session);
      if Admitted(st, e.callback.session) {
        CreatedTypes(cfg, st, e.callback.session);
      }
    } else {
      HeapStays(cfg, st, e);
    }
  }

  lemma HeapStays(cfg: Config, st: State, e: Event)
    requires !(e.Do? && e.callback.OnSession?)
    ensures Step(cfg, st, e).st.heap == st.heap
  {
    hide GetChallenge, SetWrappingKey, LoadKey, HandOver, CacheKey;
  }

  lemma {:induction false} RunKeepsTypes(cfg: Config, st: State, events: seq<Event>)
    requires Wired(st) && TypesKnown(st)
    ensures Wired(Run(cfg, st, events)) && TypesKnown(Run(cfg, st, events))
    decreases |events|
  {
    if events != [] {
      StepKeepsWired(cfg, st, events[0]);
      StepKeepsTypes(cfg, st, events[0]);
      RunKeepsTypes(cfg, Step(cfg, st, events[0]).st, events[1..]);
    }
  }
}
