/** Loading keys: every load is a run of events, what its result means, and what it leaves behind.
    key-agent/src/intf.cpp:208-271 and 285-332. */
module AgentLoads {
  import opened Strings
  import opened Cache
  import opened Token
  import opened AgentModel
  import opened AgentLaws
  import opened AgentCache
  import opened AgentRuns
  import KeyTransfer
  import SwkTypes

  // ----- A load is a run -----

  function CallEvents(calls: seq<Callback>): (es: seq<Event>) {
    seq(|calls|, i requires 0 <= i < |calls| => Do(calls[i]))
  }

  function NpmEvents(cfg: Config, st: State, url: string, data: Option<UriData>, run: NpmRun): (es: seq<Event>) {
    if !run.initialized || !run.registers then []
    else
      [Open(run.request, data)] + CallEvents(run.calls)
      + (if QuarkOf(url) in Calls(cfg, Begin(st, data, run), run.calls).keys then [Hand(run.request, url, run.unwrap)] else [])
      + [Close(run.request)]
  }

  function WalkEvents(cfg: Config, st: State, url: string, data: Option<UriData>, runs: seq<NpmRun>): (es: seq<Event>)
    decreases |runs|
  {
    if runs == [] then []
    else
      var o := TryNpm(cfg, st, url, data, runs[0]);
      NpmEvents(cfg, st, url, data, runs[0]) + if o.ok then [] else WalkEvents(cfg, o.st, url, data, runs[1..])
  }

  function LoadEvents(cfg: Config, st: State, url: string, data: Option<UriData>, runs: seq<NpmRun>): (es: seq<Event>) {
    if !UrlAccepted(url) || QuarkOf(url) in st.keys then [] else WalkEvents(cfg, st.(locked := true), url, data, runs)
  }

  lemma {:induction false} CallsAreRun(cfg: Config, st: State, calls: seq<Callback>)
    ensures Calls(cfg, st, calls) == Run(cfg, st, CallEvents(calls))
    decreases |calls|
  {
    if calls != [] {
      CallsAreRun(cfg, Call(cfg, st, calls[0]).st, calls[1..]);
      assert CallEvents(calls)[1..] == CallEvents(calls[1..]);
    }
  }

  lemma RunOne(cfg: Config, st: State, e: Event)
    ensures Run(cfg, st, [e]) == Step(cfg, st, e).st
  {
    assert Run(cfg, Step(cfg, st, e).st, []) == Step(cfg, st, e).st;
  }

  /** The state in which the NPM's callbacks are done. */
  function AfterCalls(cfg: Config, st: State, data: Option<UriData>, run: NpmRun): (r: State) {
    Calls(cfg, Begin(st, data, run), run.calls)
  }

  lemma OpenAndCalls(cfg: Config, st: State, data: Option<UriData>, run: NpmRun)
    ensures Run(cfg, st, [Open(run.request, data)] + CallEvents(run.calls)) == AfterCalls(cfg, st, data, run)
  {
    RunConcat(cfg, st, [Open(run.request, data)], CallEvents(run.calls));
    RunOne(cfg, st, Open(run.request, data));
    CallsAreRun(cfg, Begin(st, data, run), run.calls);
  }

  lemma TryIsRun(cfg: Config, st: State, url: string, data: Option<UriData>, run: NpmRun)
    ensures TryNpm(cfg, st, url, data, run).st == Run(cfg, st, NpmEvents(cfg, st, url, data, run))
  {
    if run.initialized && run.registers {
      var head := [Open(run.request, data)] + CallEvents(run.calls);
      var mid := AfterCalls(cfg, st, data, run);
      var hand := if QuarkOf(url) in mid.keys then [Hand(run.request, url, run.unwrap)] else [];
      OpenAndCalls(cfg, st, data, run);
      RunConcat(cfg, st, head, hand);
      RunConcat(cfg, st, head + hand, [Close(run.request)]);
      RunOne(cfg, mid, Hand(run.request, url, run.unwrap));
      RunOne(cfg, Deliver(mid, url, run).st, Close(run.request));
      assert Run(cfg, mid, hand) == Deliver(mid, url, run).st;
    }
  }

  lemma {:induction false} WalkIsRun(cfg: Config, st: State, url: string, data: Option<UriData>, runs: seq<NpmRun>)
    ensures WalkNpms(cfg, st, url, data, runs).st == Run(cfg, st, WalkEvents(cfg, st, url, data, runs))
    decreases |runs|
  {
    if runs != [] {
      var o := TryNpm(cfg, st, url, data, runs[0]);
      TryIsRun(cfg, st, url, data, runs[0]);
      if o.ok {
        assert NpmEvents(cfg, st, url, data, runs[0]) + [] == NpmEvents(cfg, st, url, data, runs[0]);
      } else {
        WalkIsRun(cfg, o.st, url, data, runs[1..]);
        RunConcat(cfg, st, NpmEvents(cfg, st, url, data, runs[0]), WalkEvents(cfg, o.st, url, data, runs[1..]));
      }
    }
  }

  lemma LocksApart(cfg: Config, st: State, b: bool)
    requires Inv(cfg, st)
    ensures Inv(cfg, st.(locked := b))
  {
    var r := st.(locked := b);
    assert PointersLive(r) && TablesKeyed(r) && OwnNames(r);
    assert Current(r);
    if cfg.cascade == AsMeant {
      assert Bound(r) by {
        assert forall p :: Listed(st, p) ==> Listed(r, p);
      }
    }
  }

  /** Between taking and dropping the lock, a load does exactly what the run of its events does. */
  lemma LoadIsRun(cfg: Config, st: State, url: string, data: Option<UriData>, runs: seq<NpmRun>)
    requires !st.locked
    ensures LoadUrl(cfg, st, url, data, runs).st
         == Run(cfg, st.(locked := true), LoadEvents(cfg, st, url, data, runs)).(locked := false)
  {
    WalkIsRun(cfg, st.(locked := true), url, data, runs);
  }

  // ----- Any NPM that uses its own request id -----

  predicate OwnRequest(run: NpmRun) {
    forall i :: 0 <= i < |run.calls| ==>
      && !run.calls[i].OnSetSession?
      && (run.calls[i].OnSession? ==> run.calls[i].session.request == run.request)
  }

  predicate SameRequests(st: State, r: State) {
    r.requests == st.requests && r.locked == st.locked
  }

  lemma SessionKeepsRequests(cfg: Config, st: State, n: NewSession)
    ensures SameRequests(st, CreateSession(cfg, st, n).st)
  {
    var way := MakeWay(cfg, st, n.stm, n.id);
    assert SameRequests(st, way);
    var installed := Installed(cfg, st, n);
    assert SameRequests(st, installed);
    var stored := StoreSession(cfg, installed, Target(st, n), n.luck);
    assert SameRequests(st, stored);
  }

  /** No callback registers or drops a request. */
  lemma CallKeepsRequests(cfg: Config, st: State, c: Callback)
    ensures SameRequests(st, Call(cfg, st, c).st)
  {
    match c
    case OnSession(n) => SessionKeepsRequests(cfg, st, n);
    case OnKey(n) => CreateKeyEffect(cfg, st, n);
    case OnChallenge(_, _, _, _) =>
    case OnSetSession(_, _, _) =>
  }

  lemma {:induction false} CallsKeepRequests(cfg: Config, st: State, calls: seq<Callback>)
    ensures Calls(cfg, st, calls).requests == st.requests && Calls(cfg, st, calls).locked == st.locked
    decreases |calls|
  {
    if calls != [] {
      CallKeepsRequests(cfg, st, calls[0]);
      CallsKeepRequests(cfg, Call(cfg, st, calls[0]).st, calls[1..]);
    }
  }

  lemma {:induction false} TameConcat(cfg: Config, st: State, a: seq<Event>, b: seq<Event>)
    requires TameRun(cfg, st, a) && TameRun(cfg, Run(cfg, st, a), b)
    ensures TameRun(cfg, st, a + b)
    decreases |a|
  {
    if a == [] {
      assert a + b == b;
    } else {
      TameConcat(cfg, Step(cfg, st, a[0]).st, a[1..], b);
      assert (a + b)[0] == a[0] && (a + b)[1..] == a[1..] + b;
    }
  }

  lemma {:induction false} OwnCallsTame(cfg: Config, st: State, request: string, calls: seq<Callback>)
    requires request in st.requests
    requires forall i :: 0 <= i < |calls| ==>
               !calls[i].OnSetSession? && (calls[i].OnSession? ==> calls[i].session.request == request)
    ensures TameRun(cfg, st, CallEvents(calls))
    decreases |calls|
  {
    if calls != [] {
      CallKeepsRequests(cfg, st, calls[0]);
      OwnCallsTame(cfg, Call(cfg, st, calls[0]).st, request, calls[1..]);
      assert CallEvents(calls)[1..] == CallEvents(calls[1..]);
    }
  }

  lemma TameOne(cfg: Config, st: State, e: Event)
    requires !e.Do?
    ensures TameRun(cfg, st, [e])
  {
    assert TameRun(cfg, Step(cfg, st, e).st, []);
  }

  lemma NpmEventsTame(cfg: Config, st: State, url: string, data: Option<UriData>, run: NpmRun)
    requires OwnRequest(run)
    ensures TameRun(cfg, st, NpmEvents(cfg, st, url, data, run))
  {
    if run.initialized && run.registers {
      var start := [Open(run.request, data)];
      var head := start + CallEvents(run.calls);
      var mid := AfterCalls(cfg, st, data, run);
      var hand := if QuarkOf(url) in mid.keys then [Hand(run.request, url, run.unwrap)] else [];
      TameOne(cfg, st, start[0]);
      RunOne(cfg, st, start[0]);
      OwnCallsTame(cfg, Begin(st, data, run), run.request, run.calls);
      TameConcat(cfg, st, start, CallEvents(run.calls));
      TameOne(cfg, Run(cfg, st, head), Hand(run.request, url, run.unwrap));
      TameConcat(cfg, st, head, hand);
      TameOne(cfg, Run(cfg, st, head + hand), Close(run.request));
      TameConcat(cfg, st, head + hand, [Close(run.request)]);
    }
  }

  lemma {:induction false} WalkEventsTame(cfg: Config, st: State, url: string, data: Option<UriData>, runs: seq<NpmRun>)
    requires forall i :: 0 <= i < |runs| ==> OwnRequest(runs[i])
    ensures TameRun(cfg, st, WalkEvents(cfg, st, url, data, runs))
    decreases |runs|
  {
    if runs != [] {
      var o := TryNpm(cfg, st, url, data, runs[0]);
      var es := NpmEvents(cfg, st, url, data, runs[0]);
      NpmEventsTame(cfg, st, url, data, runs[0]);
      TryIsRun(cfg, st, url, data, runs[0]);
      if o.ok {
        assert es + [] == es;
      } else {
        WalkEventsTame(cfg, o.st, url, data, runs[1..]);
        TameConcat(cfg, st, es, WalkEvents(cfg, o.st, url, data, runs[1..]));
      }
    }
  }

  /** One load among many. */
  datatype Load = Load(url: string, data: Option<UriData>, runs: seq<NpmRun>)

  function Loads(cfg: Config, st: State, loads: seq<Load>): (r: State)
    decreases |loads|
  {
    if loads == [] then st
    else Loads(cfg, LoadUrl(cfg, st, loads[0].url, loads[0].data, loads[0].runs).st, loads[1..])
  }

  predicate OwnRequests(loads: seq<Load>) {
    forall i, j :: 0 <= i < |loads| && 0 <= j < |loads[i].runs| ==> OwnRequest(loads[i].runs[j])
  }

  /** The events of the load are tame, and so are those of the loads after it. */
  predicate TameLoads(cfg: Config, st: State, loads: seq<Load>)
    decreases |loads|
  {
    loads == []
    || (TameRun(cfg, st.(locked := true), LoadEvents(cfg, st, loads[0].url, loads[0].data, loads[0].runs))
        && TameLoads(cfg, LoadUrl(cfg, st, loads[0].url, loads[0].data, loads[0].runs).st, loads[1..]))
  }

  lemma LoadKeepsInv(cfg: Config, st: State, l: Load)
    requires Inv(cfg, st) && !st.locked
    requires TameRun(cfg, st.(locked := true), LoadEvents(cfg, st, l.url, l.data, l.runs))
    ensures Inv(cfg, LoadUrl(cfg, st, l.url, l.data, l.runs).st)
    ensures !LoadUrl(cfg, st, l.url, l.data, l.runs).st.locked
  {
    var st1 := st.(locked := true);
    var es := LoadEvents(cfg, st, l.url, l.data, l.runs);
    LoadIsRun(cfg, st, l.url, l.data, l.runs);
    LocksApart(cfg, st, true);
    RunKeepsInv(cfg, st1, es);
    LocksApart(cfg, Run(cfg, st1, es), false);
  }

  /** Over any sequence of loads by any NPMs that make tame callbacks: each session of the table is the current session of
      the STM it names, so no STM has two, and with the meant removal no key outlives its session. */
  lemma {:induction false} LoadsKeepInv(cfg: Config, st: State, loads: seq<Load>)
    requires Inv(cfg, st) && !st.locked && TameLoads(cfg, st, loads)
    ensures Inv(cfg, Loads(cfg, st, loads)) && !Loads(cfg, st, loads).locked
    decreases |loads|
  {
    if loads != [] {
      LoadKeepsInv(cfg, st, loads[0]);
      LoadsKeepInv(cfg, LoadUrl(cfg, st, loads[0].url, loads[0].data, loads[0].runs).st, loads[1..]);
    }
  }

  lemma OwnLoadTame(cfg: Config, st: State, l: Load)
    requires forall j :: 0 <= j < |l.runs| ==> OwnRequest(l.runs[j])
    ensures TameRun(cfg, st.(locked := true), LoadEvents(cfg, st, l.url, l.data, l.runs))
  {
    WalkEventsTame(cfg, st.(locked := true), l.url, l.data, l.runs);
  }

  /** NPMs that create sessions under their own request and set none directly are tame in every state. */
  lemma {:induction false} OwnLoadsTame(cfg: Config, st: State, loads: seq<Load>)
    requires OwnRequests(loads)
    ensures TameLoads(cfg, st, loads)
    decreases |loads|
  {
    if loads != [] {
      OwnLoadTame(cfg, st, loads[0]);
      OwnLoadsTame(cfg, LoadUrl(cfg, st, loads[0].url, loads[0].data, loads[0].runs).st, loads[1..]);
    }
  }

  /** The agent after start-up: STMs without sessions, nothing else. */
  predicate Fresh(st: State) {
    && st.heap == map[] && st.next == 0 && st.sessions == map[] && st.keys == map[] && st.requests == map[]
    && (forall s :: s in st.stms ==> st.stms[s].None?)
    && Sound(st.db) && st.device == Device(None, map[], 1) && !st.locked
  }

  lemma FreshInv(cfg: Config, st: State)
    requires Fresh(st)
    ensures Inv(cfg, st) && TypesKnown(st) && Bound(st) && SessionsCached(st) && KeysCached(st)
  {
  }

  // ----- What the result of a load means -----

  predicate Takes(cfg: Config, st: State, e: Event, url: string) {
    e.Hand? && e.url == url && Step(cfg, st, e).ok
  }

  /** Somewhere in this run the key of the URL is handed to its STM, and the STM takes it. */
  predicate Delivered(cfg: Config, st: State, es: seq<Event>, url: string)
    decreases |es|
  {
    es != [] && (Takes(cfg, st, es[0], url) || Delivered(cfg, Step(cfg, st, es[0]).st, es[1..], url))
  }

  lemma {:induction false} DeliveredConcat(cfg: Config, st: State, a: seq<Event>, b: seq<Event>, url: string)
    ensures Delivered(cfg, st, a + b, url) <==> Delivered(cfg, st, a, url) || Delivered(cfg, Run(cfg, st, a), b, url)
    decreases |a|
  {
    if a == [] {
      assert a + b == b;
    } else {
      DeliveredConcat(cfg, Step(cfg, st, a[0]).st, a[1..], b, url);
      assert (a + b)[0] == a[0] && (a + b)[1..] == a[1..] + b;
    }
  }

  lemma {:induction false} NotDelivered(cfg: Config, st: State, es: seq<Event>, url: string)
    requires forall i :: 0 <= i < |es| ==> !es[i].Hand?
    ensures !Delivered(cfg, st, es, url)
    decreases |es|
  {
    if es != [] {
      NotDelivered(cfg, Step(cfg, st, es[0]).st, es[1..], url);
    }
  }

  lemma DeliveredOne(cfg: Config, st: State, e: Event, url: string)
    ensures Delivered(cfg, st, [e], url) <==> Takes(cfg, st, e, url)
  {
    assert !Delivered(cfg, Step(cfg, st, e).st, [], url);
  }

  /** The one place where an NPM's run can hand over a key. */
  lemma NpmDelivers(cfg: Config, st: State, url: string, data: Option<UriData>, run: NpmRun)
    ensures Delivered(cfg, st, NpmEvents(cfg, st, url, data, run), url) <==>
              TryNpm(cfg, st, url, data, run).ok && QuarkOf(url) in TryNpm(cfg, st, url, data, run).st.keys
  {
    if run.initialized && run.registers {
      var head := [Open(run.request, data)] + CallEvents(run.calls);
      var mid := AfterCalls(cfg, st, data, run);
      var hand := if QuarkOf(url) in mid.keys then [Hand(run.request, url, run.unwrap)] else [];
      var last := [Close(run.request)];
      OpenAndCalls(cfg, st, data, run);
      DeliveredConcat(cfg, st, head, hand, url);
      DeliveredConcat(cfg, st, head + hand, last, url);
      NotDelivered(cfg, st, head, url);
      NotDelivered(cfg, Run(cfg, st, head + hand), last, url);
      if hand == [] {
        NotDelivered(cfg, mid, hand, url);
      } else {
        DeliveredOne(cfg, mid, hand[0], url);
      }
      DeliverKeepsKeys(mid, url, run);
    } else {
      NotDelivered(cfg, st, [], url);
    }
  }

  lemma DeliverKeepsKeys(st: State, url: string, run: NpmRun)
    ensures Deliver(st, url, run).st.keys == st.keys
  {
  }

  lemma {:induction false} WalkDelivers(cfg: Config, st: State, url: string, data: Option<UriData>, runs: seq<NpmRun>)
    ensures Delivered(cfg, st, WalkEvents(cfg, st, url, data, runs), url) <==>
              WalkNpms(cfg, st, url, data, runs).ok && QuarkOf(url) in WalkNpms(cfg, st, url, data, runs).st.keys
    decreases |runs|
  {
    if runs != [] {
      var o := TryNpm(cfg, st, url, data, runs[0]);
      var es := NpmEvents(cfg, st, url, data, runs[0]);
      NpmDelivers(cfg, st, url, data, runs[0]);
      TryIsRun(cfg, st, url, data, runs[0]);
      if o.ok {
        assert es + [] == es;
      } else {
        WalkDelivers(cfg, o.st, url, data, runs[1..]);
        var rest := WalkEvents(cfg, o.st, url, data, runs[1..]);
        DeliveredConcat(cfg, st, es, rest, url);
      }
    }
  }

  /** A load of an acceptable URL returns TRUE exactly when the key was in the table at entry or an STM took it in this
      very call. The key then is in the table, and loading the URL again returns TRUE, runs no NPM and changes nothing. */
  lemma LoadResult(cfg: Config, st: State, url: string, data: Option<UriData>, runs: seq<NpmRun>)
    requires !st.locked
    ensures var r := LoadUrl(cfg, st, url, data, runs);
            && (r.ok <==> UrlAccepted(url)
                          && (QuarkOf(url) in st.keys
                              || Delivered(cfg, st.(locked := true), LoadEvents(cfg, st, url, data, runs), url)))
            && (r.ok ==> QuarkOf(url) in r.st.keys)
            && (r.ok ==> forall data', runs' :: LoadUrl(cfg, r.st, url, data', runs') == Outcome(r.st, true))
  {
    WalkDelivers(cfg, st.(locked := true), url, data, runs);
  }

  /** The check at the door, on every URL: an empty one passes, one without a colon passes, and of one with a colon neither
      what is in front of it nor what follows up to the next colon may be empty. */
  lemma UrlAcceptedExact(a: string, rest: string)
    requires Free(a, ':')
    ensures UrlAccepted(a)
    ensures UrlAccepted(a + [':'] + rest) <==> a != "" && rest != "" && rest[0] != ':'
  {
    PiecesOfCons(a, rest, ':');
    if a != "" {
      PiecesOfFree(a, ':');
    }
  }

  // ----- When a load leaves a key undelivered -----

  /** Everything that `__keyagent_stm_load_key` and the token behind it ask of a key. */
  predicate Takeable(st: State, request: string, k: Key, unwrap: bool) {
    && Deref(st, k.session).name == SGX && StmSession(st, SGX).Some?
    && request in st.requests && st.requests[request].Some?
    && KeyTransfer.Covered(KeyData(k)) && KeyTransfer.Parse(KeyData(k)).Some?
    && KeyTransfer.Parse(KeyData(k)).value.iv.Some?
    && k.typ != InvalidKey && st.requests[request].value.isPrivate == (k.typ == RsaKey)
    && Wrapping(st.device).Some? && unwrap
  }

  lemma TakeableExact(st: State, request: string, k: Key, unwrap: bool)
    ensures LoadToStm(st, request, k, unwrap).ok <==> Takeable(st, request, k, unwrap)
  {
    hide KeyTransfer.Parse, KeyTransfer.Covered, SwkTypes.LookupSwkType;
  }

  /** The NPM is initialised and takes the URL. */
  predicate Engaged(run: NpmRun) {
    run.initialized && run.registers
  }

  /** After the NPM's callbacks the key is there, and its STM cannot take it. */
  predicate Refuses(cfg: Config, st: State, url: string, data: Option<UriData>, run: NpmRun) {
    var mid := AfterCalls(cfg, st, data, run);
    QuarkOf(url) in mid.keys && !Takeable(mid, run.request, mid.keys[QuarkOf(url)], run.unwrap)
  }

  lemma TryExact(cfg: Config, st: State, url: string, data: Option<UriData>, run: NpmRun)
    ensures var r := TryNpm(cfg, st, url, data, run);
            && (r.ok <==> Engaged(run) && !Refuses(cfg, st, url, data, run))
            && (!r.ok && Engaged(run) ==> QuarkOf(url) in r.st.keys)
            && (!Engaged(run) ==> r.st == st)
  {
    if Engaged(run) {
      var mid := AfterCalls(cfg, st, data, run);
      DeliverKeepsKeys(mid, url, run);
      if QuarkOf(url) in mid.keys {
        TakeableExact(mid, run.request, mid.keys[QuarkOf(url)], run.unwrap);
      }
    }
  }

  /** Each NPM that takes part leaves a key that its STM cannot take. */
  predicate AllRefuse(cfg: Config, st: State, url: string, data: Option<UriData>, runs: seq<NpmRun>)
    decreases |runs|
  {
    runs == []
    || ((Engaged(runs[0]) ==> Refuses(cfg, st, url, data, runs[0]))
        && AllRefuse(cfg, TryNpm(cfg, st, url, data, runs[0]).st, url, data, runs[1..]))
  }

  predicate SomeEngaged(runs: seq<NpmRun>) {
    exists i :: 0 <= i < |runs| && Engaged(runs[i])
  }

  lemma SomeEngagedSplit(runs: seq<NpmRun>)
    requires runs != []
    ensures SomeEngaged(runs) <==> Engaged(runs[0]) || SomeEngaged(runs[1..])
  {
    if SomeEngaged(runs) && !Engaged(runs[0]) {
      var i :| 0 <= i < |runs| && Engaged(runs[i]);
      assert Engaged(runs[1..][i - 1]);
    }
  }

  lemma {:induction false} WalkRefused(cfg: Config, st: State, url: string, data: Option<UriData>, runs: seq<NpmRun>)
    ensures var r := WalkNpms(cfg, st, url, data, runs);
            && (!r.ok <==> AllRefuse(cfg, st, url, data, runs))
            && (!r.ok ==> (QuarkOf(url) in r.st.keys <==> SomeEngaged(runs) || QuarkOf(url) in st.keys))
    decreases |runs|
  {
    if runs != [] {
      var o := TryNpm(cfg, st, url, data, runs[0]);
      TryExact(cfg, st, url, data, runs[0]);
      SomeEngagedSplit(runs);
      if !o.ok {
        WalkRefused(cfg, o.st, url, data, runs[1..]);
      }
    }
  }

  /** A load leaves its key in the table undelivered exactly when some NPM takes part and each that does leaves a key that
      its STM cannot take. */
  lemma LeftUndelivered(cfg: Config, st: State, url: string, data: Option<UriData>, runs: seq<NpmRun>)
    requires UrlAccepted(url) && QuarkOf(url) !in st.keys
    ensures var r := LoadUrl(cfg, st, url, data, runs);
            !r.ok && QuarkOf(url) in r.st.keys <==> SomeEngaged(runs) && AllRefuse(cfg, st.(locked := true), url, data, runs)
  {
    WalkRefused(cfg, st.(locked := true), url, data, runs);
  }

  /** The request ids that the tried NPMs were given. */
  function UsedIds(cfg: Config, st: State, url: string, data: Option<UriData>, runs: seq<NpmRun>): (ids: set<string>)
    decreases |runs|
  {
    if runs == [] then {}
    else
      var o := TryNpm(cfg, st, url, data, runs[0]);
      (if runs[0].initialized && runs[0].registers then {runs[0].request} else {})
      + if o.ok then {} else UsedIds(cfg, o.st, url, data, runs[1..])
  }

  lemma TryRequests(cfg: Config, st: State, url: string, data: Option<UriData>, run: NpmRun)
    ensures var r := TryNpm(cfg, st, url, data, run).st;
            && r.locked == st.locked
            && r.requests == st.requests - if run.initialized && run.registers then {run.request} else {}
  {
    CallsKeepRequests(cfg, Begin(st, data, run), run.calls);
    assert st.requests - {} == st.requests;
    assert st.requests[run.request := data] - {run.request} == st.requests - {run.request};
  }

  lemma MinusTwice(m: map<string, Option<UriData>>, a: set<string>, b: set<string>)
    ensures m - a - b == m - (a + b)
  {
  }

  lemma {:induction false} WalkRequests(cfg: Config, st: State, url: string, data: Option<UriData>, runs: seq<NpmRun>)
    ensures WalkNpms(cfg, st, url, data, runs).st.requests == st.requests - UsedIds(cfg, st, url, data, runs)
    ensures WalkNpms(cfg, st, url, data, runs).st.locked == st.locked
    decreases |runs|
  {
    if runs == [] {
      assert st.requests - {} == st.requests;
    } else {
      var o := TryNpm(cfg, st, url, data, runs[0]);
      var first := if runs[0].initialized && runs[0].registers then {runs[0].request} else {};
      TryRequests(cfg, st, url, data, runs[0]);
      if o.ok {
        assert first + {} == first;
      } else {
        WalkRequests(cfg, o.st, url, data, runs[1..]);
        MinusTwice(st.requests, first, UsedIds(cfg, o.st, url, data, runs[1..]));
      }
    }
  }

  /** On every return path the writer lock is free again, and the request table is what it was, less any entry that was
      in flight under an id handed out again: it is as at entry exactly when no such id was in flight. */
  lemma LoadLeavesRequests(cfg: Config, st: State, url: string, data: Option<UriData>, runs: seq<NpmRun>)
    requires !st.locked
    ensures var r := LoadUrl(cfg, st, url, data, runs).st;
            var used := if !UrlAccepted(url) || QuarkOf(url) in st.keys then {}
                        else UsedIds(cfg, st.(locked := true), url, data, runs);
            && r.locked == st.locked
            && r.requests == st.requests - used
            && (r.requests == st.requests <==> used !! st.requests.Keys)
  {
    WalkRequests(cfg, st.(locked := true), url, data, runs);
    var used := if !UrlAccepted(url) || QuarkOf(url) in st.keys then {}
                else UsedIds(cfg, st.(locked := true), url, data, runs);
    assert (st.requests - used).Keys == st.requests.Keys - used;
    assert used !! st.requests.Keys ==> st.requests - used == st.requests;
  }
}
