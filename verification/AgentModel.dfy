/** The key agent as a state machine: its tables of sessions, keys, STMs and requests (key-agent/src/session.cpp, key.cpp,
    intf.cpp, key-agent/stm/stm_init.cpp), together with the cache and the token library behind it. */
module AgentModel {
  import opened Strings
  import opened Cache
  import opened Token
  import SwkTypes
  import KeyTransfer

  /** The address of a session structure. Sessions are never freed: leaving the table only drops the table's pointer. */
  type Ptr = nat

  datatype Session = Session(name: string, id: string, swkType: string, swk: Bytes, cacheId: int)

  datatype Key = Key(url: string, typ: KeyType, session: Ptr, attrs: map<string, Bytes>, cacheId: int)

  /** What serves as a key of the key table, which compares plain words: the quark of a text, or the address at which a
      copy of it is stored. A quark is never equal to an address. */
  datatype TableKey = QuarkOf(text: string) | AddressOf(text: string)

  /** How a removed session takes its keys along. The source passes the address of the URL (key.cpp:146) to a table that
      is keyed by quarks (key.cpp:73); what is meant is the quark. */
  datatype Cascade = AsWritten | AsMeant

  datatype Config = Config(cascade: Cascade, cacheSessions: bool, cacheKeys: bool)

  datatype State = State(
    heap: map<Ptr, Session>,
    next: Ptr,
    stms: map<string, Option<Ptr>>,          // stm_hash: each STM's session pointer
    sessions: map<string, Ptr>,              // session_hash
    keys: map<TableKey, Key>,                // key_hash
    requests: map<string, Option<UriData>>,  // apimodule_loadkey_hash: the module data of each request in flight
    db: Db,
    device: Device,
    locked: bool                             // the writer lock
  )

  datatype Outcome = Outcome(st: State, ok: bool)

  // ----- Following pointers -----

  const NO_SESSION := Session("", "", "", [], NO_ID)

  /** The structure behind a pointer. A dead pointer, which the agent never follows (see PointersLive and
      AgentRuns.RunKeepsInv), leads to an empty structure, so that no function needs a precondition. */
  function Deref(st: State, p: Ptr): (s: Session) {
    if p in st.heap then st.heap[p] else NO_SESSION
  }

  function StmSession(st: State, stm: string): (p: Option<Ptr>) {
    if stm in st.stms then st.stms[stm] else None
  }

  function KeyData(k: Key): (data: Bytes) {
    if KEYDATA in k.attrs then k.attrs[KEYDATA] else []
  }

  /** Every pointer leads to a session structure, and every key of the table carries key data. */
  predicate PointersLive(st: State) {
    && (forall p :: p in st.heap ==> p < st.next)
    && (forall id :: id in st.sessions ==> st.sessions[id] in st.heap)
    && (forall s :: s in st.stms && st.stms[s].Some? ==> st.stms[s].value in st.heap)
    && (forall t :: t in st.keys ==> st.keys[t].session in st.heap && KEYDATA in st.keys[t].attrs)
  }

  // ----- Keys that go with their session -----

  function RemovalKey(cascade: Cascade, url: string): (k: TableKey) {
    if cascade == AsWritten then AddressOf(url) else QuarkOf(url)
  }

  /** The entries that the delete list of a session really removes. */
  function RemovedWith(cascade: Cascade, keys: map<TableKey, Key>, session: Ptr): (gone: set<TableKey>) {
    set t | t in keys && keys[t].session == session && RemovalKey(cascade, keys[t].url) in keys
      :: RemovalKey(cascade, keys[t].url)
  }

  function CacheIds(keys: map<TableKey, Key>, gone: set<TableKey>): (ids: set<int>) {
    set t | t in gone && t in keys :: keys[t].cacheId
  }

  /** `__keyagent_key_remove_by_session`: every removed key is uncached on its way out. */
  function RemoveBySession(cfg: Config, st: State, session: Ptr): (r: State) {
    var gone := RemovedWith(cfg.cascade, st.keys, session);
    st.(keys := st.keys - gone, db := DeleteSet(st.db, CacheIds(st.keys, gone)))
  }

  // ----- Sessions -----

  /** `g_hash_table_remove` on the session table, whose value destructor removes the session's keys. */
  function RemoveSession(cfg: Config, st: State, id: string): (r: State) {
    if id !in st.sessions then st
    else RemoveBySession(cfg, st.(sessions := st.sessions - {id}), st.sessions[id])
  }

  /** The session that the STM has now gives way, unless it has the very id that is being created. */
  function MakeWay(cfg: Config, st: State, stm: string, id: string): (r: State) {
    var current := StmSession(st, stm);
    if current.Some? && Deref(st, current.value).id != id then RemoveSession(cfg, st, Deref(st, current.value).id) else st
  }

  /** A known session keeps its structure and takes over a different wrapping key. */
  function UpdateSwk(st: State, p: Ptr, swk: Bytes): (r: State) {
    if Deref(st, p).swk == swk then st else st.(heap := st.heap[p := Deref(st, p).(swk := swk)])
  }

  function AddSession(st: State, stm: string, id: string, swk: Bytes, swkType: string): (r: State) {
    st.(heap := st.heap[st.next := Session(stm, id, swkType, swk, NO_ID)], next := st.next + 1,
        sessions := st.sessions[id := st.next])
  }

  /** `__keyagent_cache_session` */
  function StoreSession(cfg: Config, st: State, p: Ptr, luck: Luck): (r: State) {
    var s := Deref(st, p);
    var c := CacheSession(cfg.cacheSessions, st.db, s.name, s.swk, s.id, s.swkType, luck);
    st.(db := c.db, heap := st.heap[p := s.(cacheId := c.id)])
  }

  /** `__keyagent_stm_set_session`: the STM's pointer moves before the STM is asked, and stays if the STM refuses. */
  function SetSession(st: State, request: string, p: Ptr, unwrap: bool): (r: Outcome) {
    var s := Deref(st, p);
    if s.name !in st.stms || request !in st.requests then Outcome(st, false)
    else
      var d := SetWrappingKey(st.device, s.name, st.requests[request], s.swk, unwrap);
      Outcome(st.(stms := st.stms[s.name := Some(p)], device := d.device), d.ok)
  }

  /** The arguments of `keyagent_session_create` and what the calls it makes will return. */
  datatype NewSession = NewSession(request: string, stm: string, id: string, swk: Bytes, swkType: string,
                                   luck: Luck, unwrap: bool)

  /** The two checks before anything is changed. */
  predicate Admitted(st: State, n: NewSession) {
    SwkTypes.LookupSwkType(n.swkType).Some? && n.stm in st.stms
  }

  /** The session structure that a call works on: the one already known under the id, or a new one. */
  function Target(st: State, n: NewSession): (p: Ptr) {
    if n.id in st.sessions then st.sessions[n.id] else st.next
  }

  /** Everything up to the caching call. The table is searched before anything is removed from it. */
  function Installed(cfg: Config, st: State, n: NewSession): (r: State) {
    var st1 := MakeWay(cfg, st, n.stm, n.id);
    if n.id in st.sessions then UpdateSwk(st1, st.sessions[n.id], n.swk)
    else AddSession(st1, n.stm, n.id, n.swk, n.swkType)
  }

  /** `keyagent_session_create`, called with cache id -1 as the NPM callback does. */
  function CreateSession(cfg: Config, st: State, n: NewSession): (r: Outcome) {
    if !Admitted(st, n) then Outcome(st, false)
    else SetSession(StoreSession(cfg, Installed(cfg, st, n), Target(st, n), n.luck), n.request, Target(st, n), n.unwrap)
  }

  // ----- Keys -----

  datatype NewKey = NewKey(url: string, typ: KeyType, attrs: Option<map<string, Bytes>>, sessionId: Option<string>, luck: Luck)

  /** `__keyagent_cache_key` */
  function StoreKey(cfg: Config, st: State, t: TableKey, luck: Luck): (r: State)
    requires t in st.keys
  {
    var k := st.keys[t];
    var c := CacheKey(cfg.cacheKeys, st.db, k.url, Deref(st, k.session).id, k.typ, KeyData(k), luck);
    st.(db := c.db, keys := st.keys[t := k.(cacheId := c.id)])
  }

  predicate KeyAdmitted(st: State, n: NewKey) {
    && n.attrs.Some? && n.sessionId.Some?
    && KEYDATA in n.attrs.value
    && n.sessionId.value in st.sessions
  }

  function AddKey(st: State, n: NewKey): (r: State)
    requires KeyAdmitted(st, n)
  {
    st.(keys := st.keys[QuarkOf(n.url) := Key(n.url, n.typ, st.sessions[n.sessionId.value], n.attrs.value, NO_ID)])
  }

  /** `__keyagent_key_create`: a key that is already there is only cached again. */
  function CreateKey(cfg: Config, st: State, n: NewKey): (r: Outcome) {
    var t := QuarkOf(n.url);
    if t in st.keys then Outcome(StoreKey(cfg, st, t, n.luck), true)
    else if !KeyAdmitted(st, n) then Outcome(st, false)
    else Outcome(StoreKey(cfg, AddKey(st, n), t, n.luck), true)
  }

  /** What `__keyagent_stm_load_key` passes on: the session is the one whose wrapping key type is looked up. */
  datatype Details = Details(session: Ptr, swkType: Option<string>, stm: string, data: Option<UriData>,
                             parts: KeyTransfer.Parts, typ: KeyType)

  /** The details for a key, or None where the source returns FALSE before it asks the STM. A record that is shorter
      than its own header says, behind whose end the source would read, is counted among these. */
  function HandOver(st: State, request: string, k: Key): (d: Option<Details>) {
    var stm := Deref(st, k.session).name;
    var current := StmSession(st, stm);
    if stm !in st.stms || request !in st.requests || current.None? then None
    else if !KeyTransfer.Covered(KeyData(k)) then None
    else
      var parts := KeyTransfer.Parse(KeyData(k));
      if parts.None? then None
      else Some(Details(current.value, SwkTypes.LookupSwkType(Deref(st, current.value).swkType), stm,
                        st.requests[request], parts.value, k.typ))
  }

  /** `__keyagent_stm_load_key` */
  function LoadToStm(st: State, request: string, k: Key, unwrap: bool): (r: Outcome) {
    var d := HandOver(st, request, k);
    if d.None? then Outcome(st, false)
    else
      var o := LoadKey(st.device, d.value.stm, d.value.data, d.value.parts, d.value.typ, unwrap);
      Outcome(st.(device := o.device), o.ok)
  }

  // ----- What an NPM may do -----

  datatype Callback =
    | OnSession(session: NewSession)
    | OnKey(key: NewKey)
    | OnChallenge(request: string, stm: string, nonce: Bytes, chance: ChallengeLuck)
    | OnSetSession(request: string, p: Ptr, unwrap: bool)

  /** `__keyagent_stm_get_challenge` */
  function TakeChallenge(st: State, request: string, stm: string, nonce: Bytes, luck: ChallengeLuck): (r: Outcome) {
    if stm !in st.stms || request !in st.requests then Outcome(st, false)
    else
      var d := GetChallenge(st.device, stm, st.requests[request], nonce, luck);
      Outcome(st.(device := d.device), d.ok)
  }

  function Call(cfg: Config, st: State, c: Callback): (r: Outcome) {
    match c
    case OnSession(n) => CreateSession(cfg, st, n)
    case OnKey(n) => CreateKey(cfg, st, n)
    case OnChallenge(request, stm, nonce, luck) => TakeChallenge(st, request, stm, nonce, luck)
    case OnSetSession(request, p, unwrap) => if p in st.heap then SetSession(st, request, p, unwrap) else Outcome(st, false)
  }

  /** Any sequence of callbacks; what an NPM does with their results shows only in what it calls next. */
  function Calls(cfg: Config, st: State, calls: seq<Callback>): (r: State)
    decreases |calls|
  {
    if calls == [] then st else Calls(cfg, Call(cfg, st, calls[0]).st, calls[1..])
  }

  // ----- Loading a key -----

  /** One NPM's part in a load: whether it is initialised and takes the URL, the request id it is given, the callbacks it
      makes, and whether the STM would unwrap the key afterwards. */
  datatype NpmRun = NpmRun(initialized: bool, registers: bool, request: string, calls: seq<Callback>, unwrap: bool)

  function Begin(st: State, data: Option<UriData>, run: NpmRun): (r: State) {
    st.(requests := st.requests[run.request := data])
  }

  /** The STM is asked only when the key is there; an NPM that failed to create it still ends the search. */
  function Deliver(st: State, url: string, run: NpmRun): (r: Outcome) {
    if QuarkOf(url) in st.keys then LoadToStm(st, run.request, st.keys[QuarkOf(url)], run.unwrap) else Outcome(st, true)
  }

  function End(st: State, run: NpmRun): (r: State) {
    st.(requests := st.requests - {run.request})
  }

  /** `_loadkey` for one NPM. */
  function TryNpm(cfg: Config, st: State, url: string, data: Option<UriData>, run: NpmRun): (r: Outcome) {
    if !run.initialized || !run.registers then Outcome(st, false)
    else
      var o := Deliver(Calls(cfg, Begin(st, data, run), run.calls), url, run);
      Outcome(End(o.st, run), o.ok)
  }

  /** `g_hash_table_find` over the NPMs in the order in which the table lists them. */
  function WalkNpms(cfg: Config, st: State, url: string, data: Option<UriData>, runs: seq<NpmRun>): (r: Outcome)
    decreases |runs|
  {
    if runs == [] then Outcome(st, false)
    else
      var o := TryNpm(cfg, st, url, data, runs[0]);
      if o.ok then o else WalkNpms(cfg, o.st, url, data, runs[1..])
  }

  /** The URL check at the door: of its ':' tokens neither the first nor, if there is one, the second is empty. */
  predicate UrlAccepted(url: string) {
    var tokens := Split(url, ':');
    !(|tokens| >= 1 && tokens[0] == "") && !(|tokens| >= 2 && tokens[1] == "")
  }

  /** `keyagent_loadkey_with_moduledata` */
  function LoadUrl(cfg: Config, st: State, url: string, data: Option<UriData>, runs: seq<NpmRun>): (r: Outcome) {
    if !UrlAccepted(url) then Outcome(st, false)
    else if QuarkOf(url) in st.keys then Outcome(st, true)
    else
      var walked := WalkNpms(cfg, st.(locked := true), url, data, runs);
      Outcome(walked.st.(locked := false), walked.ok && QuarkOf(url) in walked.st.keys)
  }
}
