/** Reference counts of byte buffers and attribute tables: include/k_types.h:43-120, key-agent/types.h:49-54 and the
    ownership that a session takes of its wrapping key, key-agent/src/session.cpp:88-98. */
module Buffers {
  import opened Strings

  type Id = nat

  /** A live buffer: its own count, the count of the byte array inside it, and the bytes. */
  datatype Buffer = Buffer(outer: int, bytes: int, data: Bytes)

  /** A live attribute table: the count of its hash table and its own count. */
  datatype Attributes = Attributes(hashCount: int, outer: int)

  /** A stored pointer that owns the buffer it points to. */
  datatype Place = Attr(owner: Id, name: string) | Swk(session: string)

  datatype State = State(
    buffers: map<Id, Buffer>,        // buffers whose structure was not freed yet
    attributes: map<Id, Attributes>, // attribute tables that were not freed yet
    places: map<Place, Id>,          // table entries and session fields
    handles: multiset<Id>,           // buffer pointers that callers hold and must unref
    tableHandles: multiset<Id>,      // attribute table pointers that callers hold and must unref
    freedBytes: seq<Id>,             // byte arrays freed so far, in order
    freed: seq<Id>,                  // structures freed so far, in order
    next: Id,
    nextTable: Id
  )

  const EMPTY := State(map[], map[], map[], multiset{}, multiset{}, [], [], 0, 0)

  function PlacesOf(places: map<Place, Id>, b: Id): (s: set<Place>) {
    set k | k in places && places[k] == b
  }

  function Owners(st: State, b: Id): (n: nat) {
    st.handles[b] + |PlacesOf(st.places, b)|
  }

  predicate NoRepeat(s: seq<Id>) {
    forall i, j :: 0 <= i < j < |s| ==> s[i] != s[j]
  }

  predicate Counted(st: State) {
    forall b :: b in st.buffers ==> 1 <= st.buffers[b].outer == st.buffers[b].bytes == Owners(st, b)
  }

  predicate PointersLive(st: State) {
    && (forall b :: b in st.handles ==> b in st.buffers)
    && (forall k :: k in st.places ==> st.places[k] in st.buffers)
  }

  /** Every buffer ever allocated is either live or was freed, once, together with its bytes. */
  predicate LoggedOnce(st: State) {
    && st.freedBytes == st.freed
    && NoRepeat(st.freed)
    && (forall b :: b in st.buffers ==> b < st.next && b !in st.freed)
    && (forall b :: b in st.freed ==> b < st.next)
    && (forall b: Id :: b < st.next ==> b in st.buffers || b in st.freed)
  }

  predicate BuffersConserved(st: State) {
    Counted(st) && PointersLive(st) && LoggedOnce(st)
  }

  predicate TablesConserved(st: State) {
    && (forall k :: k in st.places && k.Attr? ==> k.owner in st.attributes)
    && (forall t :: t in st.attributes ==>
          1 <= st.attributes[t].outer == st.attributes[t].hashCount == st.tableHandles[t])
    && (forall t :: t in st.tableHandles ==> t in st.attributes)
    && (forall t :: t in st.attributes ==> t < st.nextTable)
  }

  /** Every count equals the number of owners; pointers point to live things; nothing is freed twice or lost. */
  predicate Conserved(st: State) {
    BuffersConserved(st) && TablesConserved(st)
  }

  // ----- The primitives -----

  /** `k_buffer_ref` */
  function Ref(st: State, b: Id): (r: State)
    requires b in st.buffers
  {
    var buf := st.buffers[b];
    st.(buffers := st.buffers[b := buf.(bytes := buf.bytes + 1, outer := buf.outer + 1)])
  }

  /** `k_buffer_unref`: the byte array first, then the structure. */
  function Unref(st: State, b: Id): (r: State)
    requires b in st.buffers
  {
    var buf := st.buffers[b].(bytes := st.buffers[b].bytes - 1);
    var st1 := st.(freedBytes := if buf.bytes == 0 then st.freedBytes + [b] else st.freedBytes);
    if buf.outer - 1 == 0 then st1.(buffers := st.buffers - {b}, freed := st.freed + [b])
    else st1.(buffers := st.buffers[b := buf.(outer := buf.outer - 1)])
  }

  /** `k_buffer_ref`, the result kept by the caller. */
  function Hold(st: State, b: Id): (r: State)
    requires b in st.buffers
  {
    Ref(st, b).(handles := st.handles + multiset{b})
  }

  /** Storing an owning pointer in a place that holds none. */
  function Fill(st: State, k: Place, b: Id): (r: State)
    requires b in st.buffers && k !in st.places
  {
    Ref(st, b).(places := st.places[k := b])
  }

  /** Dropping the owning pointer of a place. */
  function Empty(st: State, k: Place): (r: State)
    requires k in st.places && st.places[k] in st.buffers
  {
    Unref(st.(places := st.places - {k}), st.places[k])
  }

  lemma PlacesWithout(places: map<Place, Id>, k: Place, b: Id)
    requires k in places
    ensures PlacesOf(places - {k}, b) == PlacesOf(places, b) - {k}
    ensures |PlacesOf(places - {k}, b)| == |PlacesOf(places, b)| - (if places[k] == b then 1 else 0)
  {
  }

  lemma PlacesWith(places: map<Place, Id>, k: Place, v: Id, b: Id)
    requires k !in places
    ensures PlacesOf(places[k := v], b) == PlacesOf(places, b) + (if v == b then {k} else {})
    ensures |PlacesOf(places[k := v], b)| == |PlacesOf(places, b)| + (if v == b then 1 else 0)
  {
  }

  /** One owner let go of `gone`: the counts of `before` still count it, the owners of `after` no longer do. */
  predicate OneOwnerLess(before: State, after: State, gone: Id) {
    && gone in before.buffers
    && after == before.(places := after.places, handles := after.handles, tableHandles := after.tableHandles,
                        attributes := after.attributes)
    && (forall b :: b in before.buffers ==> Owners(after, b) == Owners(before, b) - if b == gone then 1 else 0)
    && (forall b :: b in after.handles ==> b in before.buffers)
    && (forall k :: k in after.places ==> after.places[k] in before.buffers)
  }

  lemma OwnedHasOwner(st: State, b: Id)
    ensures b in st.handles ==> Owners(st, b) >= 1
    ensures forall k :: k in st.places && st.places[k] == b ==> Owners(st, b) >= 1
  {
    forall k | k in st.places && st.places[k] == b
      ensures Owners(st, b) >= 1
    {
      assert k in PlacesOf(st.places, b);
    }
  }

  lemma UnrefCounted(before: State, after: State, gone: Id)
    requires BuffersConserved(before) && OneOwnerLess(before, after, gone)
    ensures Counted(Unref(after, gone))
    ensures gone in Unref(after, gone).buffers <==> Owners(after, gone) != 0
  {
    var r := Unref(after, gone);
    forall b | b in r.buffers
      ensures 1 <= r.buffers[b].outer == r.buffers[b].bytes == Owners(r, b)
    {
      assert Owners(r, b) == Owners(after, b);
    }
  }

  lemma UnrefPointers(before: State, after: State, gone: Id)
    requires BuffersConserved(before) && OneOwnerLess(before, after, gone)
    ensures PointersLive(Unref(after, gone))
  {
    hide PlacesOf, LoggedOnce;
    OwnedHasOwner(after, gone);
  }

  lemma EntryLives(st: State, k: Place)
    requires BuffersConserved(st) && k in st.places
    ensures st.places[k] in st.buffers
  {
  }

  lemma NoRepeatSnoc(s: seq<Id>, x: Id)
    requires NoRepeat(s) && x !in s
    ensures NoRepeat(s + [x])
  {
  }

  lemma UnrefLives(before: State, after: State, gone: Id)
    requires BuffersConserved(before) && OneOwnerLess(before, after, gone)
    ensures before.buffers[gone].outer == before.buffers[gone].bytes == Owners(after, gone) + 1
  {
  }

  lemma UnrefLogged(before: State, after: State, gone: Id)
    requires BuffersConserved(before) && OneOwnerLess(before, after, gone)
    ensures LoggedOnce(Unref(after, gone))
    ensures Unref(after, gone).freed == if Owners(after, gone) == 0 then before.freed + [gone] else before.freed
  {
    var r := Unref(after, gone);
    UnrefLives(before, after, gone);
    hide PlacesOf, Owners, NoRepeat, Counted, PointersLive;
    NoRepeatSnoc(before.freed, gone);
    assert forall b :: b in before.buffers <==> b in r.buffers || b == gone;
    assert forall b :: b in r.freed <==> b in before.freed || (b == gone && r.freed != before.freed);
  }

  lemma UnrefSettles(before: State, after: State, gone: Id)
    requires BuffersConserved(before) && OneOwnerLess(before, after, gone)
    ensures BuffersConserved(Unref(after, gone))
    ensures Unref(after, gone).freed == if Owners(after, gone) == 0 then before.freed + [gone] else before.freed
    ensures gone in Unref(after, gone).buffers <==> Owners(after, gone) != 0
  {
    UnrefCounted(before, after, gone);
    UnrefPointers(before, after, gone);
    UnrefLogged(before, after, gone);
  }

  lemma EmptyKeeps(st: State, k: Place)
    requires BuffersConserved(st) && k in st.places
    ensures BuffersConserved(Empty(st, k))
    ensures Empty(st, k).places == st.places - {k}
    ensures Empty(st, k).freed == if Owners(st, st.places[k]) == 1 then st.freed + [st.places[k]] else st.freed
  {
    var after := st.(places := st.places - {k});
    forall b
      ensures Owners(after, b) == Owners(st, b) - if b == st.places[k] then 1 else 0
    {
      PlacesWithout(st.places, k, b);
    }
    UnrefSettles(st, after, st.places[k]);
  }

  // ----- What callers do -----

  datatype Step =
    | Alloc(data: Bytes)                       // k_buffer_alloc
    | TakeRef(b: Id)                           // k_buffer_ref, the result kept by the caller
    | DropRef(b: Id)                           // k_buffer_unref on a pointer the caller holds
    | NewTable                                 // k_attributes_alloc
    | AddAttr(t: Id, name: string, b: Id)      // KEYAGENT_KEY_ADD_BYTEARRAY_ATTR
    | TakeTableRef(t: Id)                      // k_attributes_ref
    | DropTableRef(t: Id, order: seq<string>)  // k_attributes_unref, with the order in which entries are freed
    | NewSession(session: string, b: Id)       // session->swk = k_buffer_ref(swk)
    | SetSwk(session: string, b: Id)           // the swk update of an existing session

  /** `names` lists the entries of table t, each once. */
  ghost predicate Lists(st: State, t: Id, names: seq<string>) {
    && (forall n :: n in names <==> Attr(t, n) in st.places)
    && (forall i, j :: 0 <= i < j < |names| ==> names[i] != names[j])
  }

  /** The source's own rules for its callers: only live pointers are used, and only held ones are dropped. */
  ghost predicate Legal(st: State, step: Step) {
    match step
    case Alloc(_) => true
    case TakeRef(b) => b in st.buffers
    case DropRef(b) => b in st.handles
    case NewTable => true
    case AddAttr(t, _, b) => t in st.attributes && b in st.buffers
    case TakeTableRef(t) => t in st.attributes
    case DropTableRef(t, order) => t in st.tableHandles && t in st.attributes && Lists(st, t, order)
    case NewSession(s, b) => Swk(s) !in st.places && b in st.buffers
    case SetSwk(s, b) => Swk(s) in st.places && b in st.buffers
  }

  function AllocBuffer(st: State, data: Bytes): (r: State) {
    st.(buffers := st.buffers[st.next := Buffer(1, 1, data)], handles := st.handles + multiset{st.next}, next := st.next + 1)
  }

  function AllocTable(st: State): (r: State) {
    st.(attributes := st.attributes[st.nextTable := Attributes(1, 1)],
        tableHandles := st.tableHandles + multiset{st.nextTable}, nextTable := st.nextTable + 1)
  }

  /** The new value is counted before the table lets go of the old one, which may be the same buffer. */
  function InsertAttr(st: State, k: Place, b: Id): (r: State)
    requires PointersLive(st) && b in st.buffers
  {
    var st1 := Ref(st, b).(places := st.places[k := b]);
    if k in st.places then Unref(st1, st.places[k]) else st1
  }

  function RefTable(st: State, t: Id): (r: State)
    requires t in st.attributes
  {
    var a := st.attributes[t];
    st.(attributes := st.attributes[t := a.(hashCount := a.hashCount + 1, outer := a.outer + 1)])
  }

  /** Freeing a hash table drops its entries one after the other, in any order. Every name of a conserved table leads to
      a live buffer, so the guard only makes the function total. */
  function EmptyAll(st: State, t: Id, names: seq<string>): (r: State)
    decreases |names|
  {
    if names == [] then st
    else
      var k := Attr(t, names[0]);
      EmptyAll(if k in st.places && st.places[k] in st.buffers then Empty(st, k) else st, t, names[1..])
  }

  /** `k_attributes_unref`: the hash table first, then the structure. */
  function UnrefTable(st: State, t: Id, order: seq<string>): (r: State)
    requires t in st.attributes
  {
    var a := st.attributes[t].(hashCount := st.attributes[t].hashCount - 1);
    var st0 := st.(attributes := st.attributes[t := a]);
    var st1 := if a.hashCount == 0 then EmptyAll(st0, t, order) else st0;
    if a.outer - 1 == 0 then st1.(attributes := st1.attributes - {t})
    else st1.(attributes := st1.attributes[t := a.(outer := a.outer - 1)])
  }

  /** A session keeps its buffer when the bytes are equal, and otherwise lets go of it before taking the new one. */
  function UpdateSwk(st: State, k: Place, b: Id): (r: State)
    requires PointersLive(st) && k in st.places && b in st.buffers
  {
    if st.buffers[st.places[k]].data == st.buffers[b].data then st
    else Fill(Empty(st, k), k, b)
  }

  function DropHandle(st: State, b: Id): (r: State)
    requires PointersLive(st) && b in st.handles
  {
    Unref(st.(handles := st.handles - multiset{b}), b)
  }

  function DropTableHandle(st: State, t: Id, order: seq<string>): (r: State)
    requires t in st.attributes
  {
    UnrefTable(st, t, order).(tableHandles := st.tableHandles - multiset{t})
  }

  function Apply(st: State, step: Step): (r: State)
    requires PointersLive(st) && Legal(st, step)
  {
    match step
    case Alloc(data) => AllocBuffer(st, data)
    case TakeRef(b) => Hold(st, b)
    case DropRef(b) => DropHandle(st, b)
    case NewTable => AllocTable(st)
    case AddAttr(t, name, b) => InsertAttr(st, Attr(t, name), b)
    case TakeTableRef(t) => RefTable(st, t).(tableHandles := st.tableHandles + multiset{t})
    case DropTableRef(t, order) => DropTableHandle(st, t, order)
    case NewSession(s, b) => Fill(st, Swk(s), b)
    case SetSwk(s, b) => UpdateSwk(st, Swk(s), b)
  }

  // ----- Conservation -----

  lemma AllocOwners(st: State, data: Bytes)
    requires BuffersConserved(st)
    ensures forall b :: b in st.buffers ==> Owners(AllocBuffer(st, data), b) == Owners(st, b)
    ensures Owners(AllocBuffer(st, data), st.next) == 1
  {
    assert st.next !in st.buffers;
    assert PlacesOf(st.places, st.next) == {};
    assert st.next !in st.handles;
  }

  lemma AllocKeeps(st: State, data: Bytes)
    requires Conserved(st)
    ensures Conserved(AllocBuffer(st, data))
  {
    AllocOwners(st, data);
    AllocLogged(st, data);
    TablesApart(st, AllocBuffer(st, data));
  }

  lemma AllocLogged(st: State, data: Bytes)
    requires LoggedOnce(st)
    ensures LoggedOnce(AllocBuffer(st, data))
  {
  }

  /** One more count together with one more owner. */
  lemma RefSettles(st: State, after: State, b: Id)
    requires BuffersConserved(st) && b in st.buffers
    requires after == Ref(st, b).(places := after.places, handles := after.handles)
    requires forall c :: c in st.buffers ==> Owners(after, c) == Owners(st, c) + if c == b then 1 else 0
    requires PointersLive(after)
    ensures BuffersConserved(after)
  {
    assert after.buffers.Keys == st.buffers.Keys;
  }

  lemma FillKeeps(st: State, k: Place, b: Id)
    requires BuffersConserved(st) && b in st.buffers && k !in st.places
    ensures BuffersConserved(Fill(st, k, b))
  {
    var r := Fill(st, k, b);
    forall c
      ensures Owners(r, c) == Owners(st, c) + if c == b then 1 else 0
    {
      PlacesWith(st.places, k, b, c);
    }
    RefSettles(st, r, b);
  }

  lemma HoldKeeps(st: State, b: Id)
    requires BuffersConserved(st) && b in st.buffers
    ensures BuffersConserved(Hold(st, b))
    ensures forall c :: Owners(Hold(st, b), c) == Owners(st, c) + if c == b then 1 else 0
  {
    RefSettles(st, Hold(st, b), b);
  }

  lemma ReplacedOwners(st: State, k: Place, b: Id, c: Id)
    requires k in st.places && b in st.buffers
    ensures Owners(Ref(st, b).(places := st.places[k := b]), c)
         == Owners(st, c) + (if c == b then 1 else 0) - (if c == st.places[k] then 1 else 0)
  {
    PlacesWithout(st.places, k, c);
    PlacesWith(st.places - {k}, k, b, c);
    assert (st.places - {k})[k := b] == st.places[k := b];
  }

  /** While a value is replaced the caller's count stands in for the place's. */
  lemma InsertKeeps(st: State, k: Place, b: Id)
    requires BuffersConserved(st) && b in st.buffers
    ensures BuffersConserved(InsertAttr(st, k, b))
    ensures st.freed <= InsertAttr(st, k, b).freed
  {
    if k !in st.places {
      FillKeeps(st, k, b);
    } else {
      HoldKeeps(st, b);
      var after := Ref(st, b).(places := st.places[k := b]);
      forall c
        ensures Owners(after, c) == Owners(Hold(st, b), c) - if c == st.places[k] then 1 else 0
      {
        ReplacedOwners(st, k, b, c);
      }
      UnrefSettles(Hold(st, b), after, st.places[k]);
    }
  }

  function EntriesNamed(t: Id, names: seq<string>): (s: set<Place>) {
    set n | n in names :: Attr(t, n)
  }

  lemma EmptyFrame(st: State, k: Place)
    requires k in st.places && st.places[k] in st.buffers
    ensures var r := Empty(st, k);
            && r.places == st.places - {k} && st.freed <= r.freed
            && r.handles == st.handles && r.attributes == st.attributes
            && r.tableHandles == st.tableHandles && r.next == st.next && r.nextTable == st.nextTable
  {
  }

  lemma {:induction false} EmptyAllFrame(st: State, t: Id, names: seq<string>)
    requires BuffersConserved(st)
    requires forall n :: n in names ==> Attr(t, n) in st.places
    requires forall i, j :: 0 <= i < j < |names| ==> names[i] != names[j]
    ensures var r := EmptyAll(st, t, names);
            && st.freed <= r.freed
            && r.handles == st.handles && r.attributes == st.attributes
            && r.tableHandles == st.tableHandles && r.next == st.next && r.nextTable == st.nextTable
    decreases |names|
  {
    if names != [] {
      var k := Attr(t, names[0]);
      EmptyKeeps(st, k);
      EmptyFrame(st, k);
      EmptyAllFrame(Empty(st, k), t, names[1..]);
    }
  }

  lemma {:induction false} EmptyAllPlaces(st: State, t: Id, names: seq<string>)
    requires BuffersConserved(st)
    requires forall n :: n in names ==> Attr(t, n) in st.places
    requires forall i, j :: 0 <= i < j < |names| ==> names[i] != names[j]
    ensures EmptyAll(st, t, names).places == st.places - EntriesNamed(t, names)
    decreases |names|
  {
    if names == [] {
      assert st.places - EntriesNamed(t, names) == st.places;
    } else {
      var k := Attr(t, names[0]);
      EmptyKeeps(st, k);
      EmptyAllPlaces(Empty(st, k), t, names[1..]);
      NamesSplit(t, names);
      MinusInTwo(st.places, {k}, EntriesNamed(t, names[1..]));
    }
  }

  lemma MinusInTwo(m: map<Place, Id>, a: set<Place>, b: set<Place>)
    ensures m - a - b == m - (a + b)
  {
  }

  lemma NamesSplit(t: Id, names: seq<string>)
    requires names != []
    ensures EntriesNamed(t, names) == {Attr(t, names[0])} + EntriesNamed(t, names[1..])
  {
  }

  lemma {:induction false} EmptyAllKeeps(st: State, t: Id, names: seq<string>)
    requires BuffersConserved(st)
    requires forall n :: n in names ==> Attr(t, n) in st.places
    requires forall i, j :: 0 <= i < j < |names| ==> names[i] != names[j]
    ensures BuffersConserved(EmptyAll(st, t, names))
    decreases |names|
  {
    if names != [] {
      var k := Attr(t, names[0]);
      EmptyKeeps(st, k);
      EmptyAllKeeps(Empty(st, k), t, names[1..]);
    }
  }

  lemma TableHandlesApart(st: State, after: State)
    requires BuffersConserved(st)
    requires after == st.(attributes := after.attributes, tableHandles := after.tableHandles, nextTable := after.nextTable)
    ensures BuffersConserved(after)
  {
    assert forall b :: Owners(after, b) == Owners(st, b);
  }

  lemma TablesWithout(st: State, r: State, t: Id)
    requires TablesConserved(st) && t in st.attributes && st.tableHandles[t] == 1
    requires r.attributes == st.attributes - {t} && r.tableHandles == st.tableHandles - multiset{t}
    requires r.nextTable == st.nextTable
    requires forall k :: k in r.places ==> k in st.places && (k.Attr? ==> k.owner != t)
    ensures TablesConserved(r)
  {
  }

  lemma LastTableRef(st: State, t: Id, order: seq<string>)
    requires Conserved(st) && t in st.tableHandles && Lists(st, t, order)
    requires st.attributes[t].hashCount == 1
    ensures Conserved(DropTableHandle(st, t, order))
    ensures st.freed <= DropTableHandle(st, t, order).freed
  {
    var st0 := st.(attributes := st.attributes[t := st.attributes[t].(hashCount := 0)]);
    TableHandlesApart(st, st0);
    EmptyAllKeeps(st0, t, order);
    EmptyAllFrame(st0, t, order);
    EmptyAllPlaces(st0, t, order);
    var emptied := EmptyAll(st0, t, order);
    var r := emptied.(attributes := emptied.attributes - {t}, tableHandles := st.tableHandles - multiset{t});
    assert r == DropTableHandle(st, t, order);
    TableHandlesApart(emptied, r);
    assert st0.attributes - {t} == st.attributes - {t};
    NoEntryLeft(st, t, order);
    TablesWithout(st, r, t);
  }

  lemma NoEntryLeft(st: State, t: Id, order: seq<string>)
    requires Lists(st, t, order)
    ensures forall k :: k in st.places - EntriesNamed(t, order) && k.Attr? ==> k.owner != t
  {
    forall k | k in st.places && k.Attr? && k.owner == t
      ensures k in EntriesNamed(t, order)
    {
      assert k == Attr(t, k.name);
    }
  }

  lemma TablesFewerRefs(st: State, r: State, t: Id)
    requires TablesConserved(st) && t in st.attributes && st.tableHandles[t] > 1
    requires r == st.(tableHandles := r.tableHandles, attributes := r.attributes)
    requires r.tableHandles == st.tableHandles - multiset{t}
    requires r.attributes == st.attributes[t := Attributes(st.attributes[t].hashCount - 1, st.attributes[t].outer - 1)]
    ensures TablesConserved(r)
  {
  }

  lemma OtherTableRef(st: State, t: Id, order: seq<string>)
    requires Conserved(st) && t in st.tableHandles && Lists(st, t, order)
    requires st.attributes[t].hashCount != 1
    ensures Conserved(DropTableHandle(st, t, order))
    ensures st.freed <= DropTableHandle(st, t, order).freed
  {
    var r := DropTableHandle(st, t, order);
    TableHandlesApart(st, r);
    TablesFewerRefs(st, r, t);
  }

  lemma UnrefTableKeeps(st: State, t: Id, order: seq<string>)
    requires Conserved(st) && t in st.tableHandles && Lists(st, t, order)
    ensures Conserved(DropTableHandle(st, t, order))
    ensures st.freed <= DropTableHandle(st, t, order).freed
  {
    if st.attributes[t].hashCount == 1 {
      LastTableRef(st, t, order);
    } else {
      OtherTableRef(st, t, order);
    }
  }

  /** The clauses about tables do not look at buffers, handles and places of sessions. */
  lemma TablesApart(st: State, r: State)
    requires TablesConserved(st)
    requires r.attributes == st.attributes && r.tableHandles == st.tableHandles && r.nextTable == st.nextTable
    requires forall k :: k in r.places && k.Attr? ==> k in st.places
    ensures TablesConserved(r)
  {
  }

  lemma AddAttrKeeps(st: State, t: Id, name: string, b: Id)
    requires Conserved(st) && Legal(st, AddAttr(t, name, b))
    ensures Conserved(Apply(st, AddAttr(t, name, b)))
    ensures st.freed <= Apply(st, AddAttr(t, name, b)).freed
  {
    InsertKeeps(st, Attr(t, name), b);
    InsertLeavesTables(st, Attr(t, name), b);
  }

  lemma NewTableKeeps(st: State)
    requires Conserved(st)
    ensures Conserved(AllocTable(st))
  {
    TableHandlesApart(st, AllocTable(st));
    FreshTable(st, AllocTable(st));
  }

  lemma FreshTable(st: State, r: State)
    requires TablesConserved(st)
    requires r == AllocTable(st)
    ensures TablesConserved(r)
  {
    assert st.nextTable !in st.tableHandles;
  }

  lemma TableRefKeeps(st: State, t: Id)
    requires Conserved(st) && t in st.attributes
    ensures Conserved(Apply(st, TakeTableRef(t)))
  {
    TableHandlesApart(st, Apply(st, TakeTableRef(t)));
  }

  lemma DropKeeps(st: State, b: Id)
    requires Conserved(st) && b in st.handles
    ensures Conserved(DropHandle(st, b))
    ensures st.freed <= DropHandle(st, b).freed
  {
    DropOwner(st, b);
    UnrefSettles(st, st.(handles := st.handles - multiset{b}), b);
    TablesApart(st, DropHandle(st, b));
  }

  lemma DropOwner(st: State, b: Id)
    requires PointersLive(st) && b in st.handles
    ensures OneOwnerLess(st, st.(handles := st.handles - multiset{b}), b)
  {
  }

  lemma InsertLeavesTables(st: State, k: Place, b: Id)
    requires BuffersConserved(st) && b in st.buffers
    ensures var r := InsertAttr(st, k, b);
            && r.places == st.places[k := b] && r.attributes == st.attributes
            && r.tableHandles == st.tableHandles && r.nextTable == st.nextTable
  {
  }

  lemma SetSwkKeeps(st: State, s: string, b: Id)
    requires Conserved(st) && Legal(st, SetSwk(s, b))
    ensures Conserved(UpdateSwk(st, Swk(s), b))
    ensures st.freed <= UpdateSwk(st, Swk(s), b).freed
  {
    var k := Swk(s);
    if st.buffers[st.places[k]].data != st.buffers[b].data {
      EmptyKeeps(st, k);
      EmptyFrame(st, k);
      FillKeeps(Empty(st, k), k, b);
      TablesApart(st, Fill(Empty(st, k), k, b));
    }
  }

  /** Every step that callers are allowed keeps all counts equal to the owners, and frees nothing twice. */
  lemma StepKeeps(st: State, step: Step)
    requires Conserved(st) && Legal(st, step)
    ensures Conserved(Apply(st, step))
    ensures st.freed <= Apply(st, step).freed
  {
    match step
    case Alloc(data) => AllocKeeps(st, data);
    case TakeRef(b) => HoldKeeps(st, b);
    case DropRef(b) => DropKeeps(st, b);
    case NewTable => NewTableKeeps(st);
    case AddAttr(t, name, b) => AddAttrKeeps(st, t, name, b);
    case TakeTableRef(t) => TableRefKeeps(st, t);
    case DropTableRef(t, order) => UnrefTableKeeps(st, t, order);
    case NewSession(s, b) => FillKeeps(st, Swk(s), b);
    case SetSwk(s, b) => SetSwkKeeps(st, s, b);
  }

  /** A run in which every step is legal where it is taken. */
  ghost predicate LegalRun(st: State, steps: seq<Step>)
    requires Conserved(st)
    decreases |steps|
  {
    steps == []
    || (Legal(st, steps[0]) && (StepKeeps(st, steps[0]); LegalRun(Apply(st, steps[0]), steps[1..])))
  }

  ghost function Run(st: State, steps: seq<Step>): (r: State)
    requires Conserved(st) && LegalRun(st, steps)
    decreases |steps|
  {
    if steps == [] then st
    else
      StepKeeps(st, steps[0]);
      Run(Apply(st, steps[0]), steps[1..])
  }

  /** Over every legal run: counts equal owners; a buffer was freed exactly when it has no owner
      left; it was freed once; its byte array and its structure were freed together. */
  lemma {:induction false} Conservation(st: State, steps: seq<Step>)
    requires Conserved(st) && LegalRun(st, steps)
    ensures var r := Run(st, steps);
            && Conserved(r)
            && st.freed <= r.freed
            && (forall b: Id :: b < r.next ==> (b in r.freed <==> Owners(r, b) == 0))
            && (forall b :: b in r.buffers ==> r.buffers[b].outer == r.buffers[b].bytes == Owners(r, b))
            && r.freedBytes == r.freed && NoRepeat(r.freed)
    decreases |steps|
  {
    if steps != [] {
      StepKeeps(st, steps[0]);
      Conservation(Apply(st, steps[0]), steps[1..]);
    } else {
      forall b: Id | b < st.next && b in st.freed
        ensures Owners(st, b) == 0
      {
        assert PlacesOf(st.places, b) == {};
      }
    }
  }

  lemma StartsConserved()
    ensures Conserved(EMPTY)
  {
  }

  ghost function Start(): (st: State)
    ensures Conserved(st)
  {
    StartsConserved();
    EMPTY
  }

  /** In particular over every legal run from the empty state: of the buffers allocated, exactly those without an owner were
      freed, each once. */
  lemma ConservationFromEmpty(steps: seq<Step>)
    requires LegalRun(Start(), steps)
    ensures var r := Run(Start(), steps);
            Conserved(r) && NoRepeat(r.freed) && forall b: Id :: b < r.next ==> (b in r.freed <==> Owners(r, b) == 0)
  {
    Conservation(Start(), steps);
  }

  // ----- What is stored -----

  /** What a place holds now is what it held before, but for these places. */
  ghost predicate SamePlaces(st: State, r: State, but: set<Place>) {
    forall k :: k !in but ==> (k in r.places <==> k in st.places) && (k in st.places ==> r.places[k] == st.places[k])
  }

  /** A new buffer holds the bytes it was made from, and its caller holds it. */
  lemma AllocHolds(st: State, data: Bytes)
    requires Conserved(st)
    ensures var r := Apply(st, Alloc(data));
            && st.next !in st.buffers && st.next in r.buffers && r.buffers[st.next].data == data && r.next == st.next + 1
            && r.handles == st.handles + multiset{st.next} && r.tableHandles == st.tableHandles && SamePlaces(st, r, {})
  {
  }

  /** An entry that is added holds the buffer it was given, whatever it held before; no other place changes. */
  lemma AddAttrHolds(st: State, t: Id, name: string, b: Id)
    requires Conserved(st) && Legal(st, AddAttr(t, name, b))
    ensures var r := Apply(st, AddAttr(t, name, b));
            && Attr(t, name) in r.places && r.places[Attr(t, name)] == b && SamePlaces(st, r, {Attr(t, name)})
            && r.handles == st.handles && r.tableHandles == st.tableHandles
  {
    InsertLeavesTables(st, Attr(t, name), b);
  }

  lemma NewSessionHolds(st: State, s: string, b: Id)
    requires Conserved(st) && Legal(st, NewSession(s, b))
    ensures var r := Apply(st, NewSession(s, b));
            && Swk(s) in r.places && r.places[Swk(s)] == b && SamePlaces(st, r, {Swk(s)})
            && r.handles == st.handles && r.tableHandles == st.tableHandles
  {
  }

  /** After an swk update the session's buffer has the bytes that it was given, and it is the old buffer exactly when those
      bytes were equal; otherwise it is the very buffer given. */
  lemma SetSwkHolds(st: State, s: string, b: Id)
    requires Conserved(st) && Legal(st, SetSwk(s, b))
    ensures var r := Apply(st, SetSwk(s, b)); var before := st.places[Swk(s)];
            && Swk(s) in r.places && r.places[Swk(s)] in r.buffers
            && r.buffers[r.places[Swk(s)]].data == st.buffers[b].data
            && (r.places[Swk(s)] == before <==> st.buffers[before].data == st.buffers[b].data)
            && (r.places[Swk(s)] != before ==> r.places[Swk(s)] == b)
            && SamePlaces(st, r, {Swk(s)}) && r.handles == st.handles && r.tableHandles == st.tableHandles
  {
    SetSwkKeeps(st, s, b);
    var k := Swk(s);
    if st.buffers[st.places[k]].data != st.buffers[b].data {
      EmptyKeeps(st, k);
      EmptyFrame(st, k);
    }
  }

  /** References that callers take and drop are the pointers they hold; nothing stored changes. */
  lemma HandlesAreHeld(st: State, b: Id)
    requires Conserved(st)
    ensures b in st.buffers ==>
              var r := Apply(st, TakeRef(b)); r.handles == st.handles + multiset{b} && SamePlaces(st, r, {})
    ensures b in st.handles ==>
              var r := Apply(st, DropRef(b)); r.handles == st.handles - multiset{b} && SamePlaces(st, r, {})
  {
  }

  /** An attribute table lives until its last holder lets go, and then takes its entries along and nothing else. */
  lemma TableLives(st: State, t: Id, order: seq<string>)
    requires Conserved(st) && Legal(st, DropTableRef(t, order))
    ensures var r := Apply(st, DropTableRef(t, order));
            && r.handles == st.handles && r.tableHandles == st.tableHandles - multiset{t}
            && (t in r.attributes <==> st.tableHandles[t] > 1)
            && (st.tableHandles[t] > 1 ==> SamePlaces(st, r, {}))
            && (st.tableHandles[t] == 1 ==>
                  forall k :: (k in r.places <==> k in st.places && !(k.Attr? && k.owner == t))
                              && (k in r.places ==> r.places[k] == st.places[k]))
  {
    if st.attributes[t].hashCount == 1 {
      var st0 := st.(attributes := st.attributes[t := st.attributes[t].(hashCount := 0)]);
      TableHandlesApart(st, st0);
      EmptyAllFrame(st0, t, order);
      EmptyAllPlaces(st0, t, order);
      NoEntryLeft(st, t, order);
    }
  }

  lemma NewTableIsEmpty(st: State)
    requires Conserved(st)
    ensures var r := Apply(st, NewTable);
            && st.nextTable in r.attributes && st.nextTable !in st.attributes && r.nextTable == st.nextTable + 1
            && r.tableHandles == st.tableHandles + multiset{st.nextTable} && r.handles == st.handles
            && SamePlaces(st, r, {}) && forall name: string :: Attr(st.nextTable, name) !in r.places
  {
  }

  lemma TableRefIsHeld(st: State, t: Id)
    requires Conserved(st) && t in st.attributes
    ensures var r := Apply(st, TakeTableRef(t));
            r.tableHandles == st.tableHandles + multiset{t} && r.handles == st.handles && SamePlaces(st, r, {})
  {
  }

  /** No buffer's bytes change while it lives. */
  predicate SameData(st: State, r: State) {
    forall b :: b in st.buffers && b in r.buffers ==> r.buffers[b].data == st.buffers[b].data
  }

  predicate NoNewBuffers(st: State, r: State) {
    forall b :: b in r.buffers ==> b in st.buffers
  }

  lemma EmptyData(st: State, k: Place)
    requires k in st.places && st.places[k] in st.buffers
    ensures SameData(st, Empty(st, k)) && NoNewBuffers(st, Empty(st, k))
  {
  }

  lemma {:induction false} EmptyAllData(st: State, t: Id, names: seq<string>)
    ensures SameData(st, EmptyAll(st, t, names)) && NoNewBuffers(st, EmptyAll(st, t, names))
    decreases |names|
  {
    if names != [] {
      var k := Attr(t, names[0]);
      if k in st.places && st.places[k] in st.buffers {
        EmptyData(st, k);
        EmptyAllData(Empty(st, k), t, names[1..]);
      } else {
        EmptyAllData(st, t, names[1..]);
      }
    }
  }

  lemma TableData(st: State, t: Id, order: seq<string>)
    requires t in st.attributes
    ensures SameData(st, DropTableHandle(st, t, order)) && NoNewBuffers(st, DropTableHandle(st, t, order))
  {
    EmptyAllData(st.(attributes := st.attributes[t := st.attributes[t].(hashCount := st.attributes[t].hashCount - 1)]), t, order);
  }

  lemma SwkData(st: State, k: Place, b: Id)
    requires BuffersConserved(st) && k in st.places && b in st.buffers
    ensures SameData(st, UpdateSwk(st, k, b)) && NoNewBuffers(st, UpdateSwk(st, k, b))
  {
    if st.buffers[st.places[k]].data != st.buffers[b].data {
      EmptyKeeps(st, k);
      EmptyData(st, k);
    }
  }

  lemma UnrefData(st: State, b: Id)
    requires b in st.buffers
    ensures SameData(st, Unref(st, b)) && NoNewBuffers(st, Unref(st, b)) && Unref(st, b).next == st.next
  {
  }

  lemma InsertData(st: State, k: Place, b: Id)
    requires PointersLive(st) && b in st.buffers
    ensures SameData(st, InsertAttr(st, k, b)) && NoNewBuffers(st, InsertAttr(st, k, b))
  {
    var st1 := Ref(st, b).(places := st.places[k := b]);
    if k in st.places {
      UnrefData(st1, st.places[k]);
    }
  }

  lemma StepData(st: State, step: Step)
    requires Conserved(st) && Legal(st, step)
    ensures SameData(st, Apply(st, step))
    ensures !step.Alloc? ==> NoNewBuffers(st, Apply(st, step))
  {
    hide LoggedOnce, Counted, TablesConserved, Lists, EmptyAll, UnrefTable, InsertAttr, UpdateSwk, Unref;
    match step
    case Alloc(data) => AllocHolds(st, data);
    case DropRef(b) => UnrefData(st.(handles := st.handles - multiset{b}), b);
    case AddAttr(t, name, b) => InsertData(st, Attr(t, name), b);
    case DropTableRef(t, order) => TableData(st, t, order);
    case SetSwk(s, b) => SwkData(st, Swk(s), b);
    case _ =>
  }

  /** What is live at the start and at the end of a run was live all along. */
  lemma StillLive(st: State, mid: State, r: State, b: Id)
    requires LoggedOnce(st) && LoggedOnce(mid) && LoggedOnce(r) && st.freed <= mid.freed && mid.freed <= r.freed
    requires b in st.buffers && b in r.buffers && b < mid.next
    ensures b in mid.buffers
  {
    assert b !in r.freed;
    assert b in mid.freed ==> b in r.freed;
  }

  lemma IdsGrow(st: State, step: Step)
    requires Conserved(st) && Legal(st, step)
    ensures Apply(st, step).next >= st.next
  {
    hide LoggedOnce, Counted, TablesConserved;
    match step
    case DropTableRef(t, order) =>
      var st0 := st.(attributes := st.attributes[t := st.attributes[t].(hashCount := st.attributes[t].hashCount - 1)]);
      TableHandlesApart(st, st0);
      EmptyAllFrame(st0, t, order);
    case _ =>
  }

  /** Along every legal run the bytes of a live buffer never change. */
  lemma {:induction false} DataStays(st: State, steps: seq<Step>)
    requires Conserved(st) && LegalRun(st, steps)
    ensures SameData(st, Run(st, steps))
    decreases |steps|
  {
    hide Apply, LoggedOnce, Counted, TablesConserved, Lists;
    if steps != [] {
      var mid, r := Apply(st, steps[0]), Run(st, steps);
      StepKeeps(st, steps[0]);
      StepData(st, steps[0]);
      IdsGrow(st, steps[0]);
      DataStays(mid, steps[1..]);
      Conservation(mid, steps[1..]);
      DataChains(st, mid, r);
    }
  }

  lemma DataChains(st: State, mid: State, r: State)
    requires Conserved(st) && Conserved(mid) && Conserved(r) && st.freed <= mid.freed && mid.freed <= r.freed
    requires SameData(st, mid) && SameData(mid, r) && st.next <= mid.next
    ensures SameData(st, r)
  {
    forall b | b in st.buffers && b in r.buffers
      ensures r.buffers[b].data == st.buffers[b].data
    {
      StillLive(st, mid, r, b);
    }
  }

  // ----- The same operations, in place -----

  /** The allocator's view: every live structure, addressed by its id. Who holds which pointer is ghost. */
  class Pool {
    var buffers: map<Id, Buffer>
    var attributes: map<Id, Attributes>
    var places: map<Place, Id>
    ghost var handles: multiset<Id>
    ghost var tableHandles: multiset<Id>
    ghost var freedBytes: seq<Id>
    ghost var freed: seq<Id>
    var next: Id
    var nextTable: Id

    ghost function Abs(): (st: State)
      reads this
    {
      State(buffers, attributes, places, handles, tableHandles, freedBytes, freed, next, nextTable)
    }

    constructor ()
      ensures Abs() == EMPTY
    {
      buffers, attributes, places := map[], map[], map[];
      handles, tableHandles, freedBytes, freed := multiset{}, multiset{}, [], [];
      next, nextTable := 0, 0;
    }

    /** `k_buffer_alloc` */
    method BufferAlloc(data: Bytes) returns (b: Id)
      modifies this
      ensures b == old(next) && Abs() == AllocBuffer(old(Abs()), data)
    {
      b := next;
      next := next + 1;
      buffers := buffers[b := Buffer(1, 1, data)];
      handles := handles + multiset{b};
    }

    /** `k_buffer_ref` */
    method BufferRef(b: Id)
      requires b in buffers
      modifies this
      ensures Abs() == Ref(old(Abs()), b)
    {
      buffers := buffers[b := buffers[b].(bytes := buffers[b].bytes + 1)];
      buffers := buffers[b := buffers[b].(outer := buffers[b].outer + 1)];
    }

    /** `k_buffer_unref`; a NULL pointer is left alone. */
    method BufferUnref(p: Option<Id>)
      requires p.Some? ==> p.value in buffers
      modifies this
      ensures Abs() == if p.Some? then Unref(old(Abs()), p.value) else old(Abs())
    {
      if p.Some? {
        var b := p.value;
        buffers := buffers[b := buffers[b].(bytes := buffers[b].bytes - 1)];
        if buffers[b].bytes == 0 {
          freedBytes := freedBytes + [b];
        }
        buffers := buffers[b := buffers[b].(outer := buffers[b].outer - 1)];
        if buffers[b].outer == 0 {
          buffers := buffers - {b};
          freed := freed + [b];
        }
      }
    }

    /** `KEYAGENT_KEY_ADD_BYTEARRAY_ATTR`; a NULL source adds nothing. */
    method AddAttribute(t: Id, name: string, p: Option<Id>)
      requires BuffersConserved(Abs())
      requires p.Some? ==> p.value in buffers
      modifies this
      ensures Abs() == if p.Some? then InsertAttr(old(Abs()), Attr(t, name), p.value) else old(Abs())
    {
      if p.Some? {
        var k := Attr(t, name);
        BufferRef(p.value);
        var replaced := if k in places then Some(places[k]) else None;
        places := places[k := p.value];
        BufferUnref(replaced);
      }
    }

    /** `k_attributes_unref`; the entries of a dying table are freed in the order given. */
    method AttributesUnref(t: Id, order: seq<string>)
      requires BuffersConserved(Abs()) && t in attributes && Lists(Abs(), t, order)
      modifies this
      ensures Abs() == UnrefTable(old(Abs()), t, order)
    {
      hide BuffersConserved, EmptyAll;
      attributes := attributes[t := attributes[t].(hashCount := attributes[t].hashCount - 1)];
      TableHandlesApart(old(Abs()), Abs());
      if attributes[t].hashCount == 0 {
        FreeEntries(t, order);
      }
      attributes := attributes[t := attributes[t].(outer := attributes[t].outer - 1)];
      if attributes[t].outer == 0 {
        attributes := attributes - {t};
      }
    }

    /** What a stored pointer owns is let go of: `k_attribute_free`, or the first half of an swk update. */
    method Release(k: Place)
      requires BuffersConserved(Abs()) && k in places
      modifies this
      ensures Abs() == Empty(old(Abs()), k)
      ensures BuffersConserved(Abs()) && places == old(places) - {k}
      ensures attributes == old(attributes) && tableHandles == old(tableHandles)
    {
      EmptyKeeps(Abs(), k);
      var value := places[k];
      places := places - {k};
      BufferUnref(Some(value));
    }

    method FreeEntries(t: Id, order: seq<string>)
      requires BuffersConserved(Abs())
      requires forall n :: n in order ==> Attr(t, n) in places
      requires forall i, j :: 0 <= i < j < |order| ==> order[i] != order[j]
      modifies this
      ensures Abs() == EmptyAll(old(Abs()), t, order)
      ensures attributes == old(attributes) && tableHandles == old(tableHandles)
    {
      hide BuffersConserved, Empty;
      ghost var start := Abs();
      assert order[0..] == order;
      for i := 0 to |order|
        invariant BuffersConserved(Abs())
        invariant attributes == start.attributes && tableHandles == start.tableHandles
        invariant forall n :: n in order[i..] ==> Attr(t, n) in places
        invariant EmptyAll(Abs(), t, order[i..]) == EmptyAll(start, t, order)
      {
        assert order[i..][0] == order[i] && order[i..][1..] == order[i + 1..];
        EntryLives(Abs(), Attr(t, order[i]));
        Release(Attr(t, order[i]));
      }
    }

    /** The swk update of `keyagent_session_create`. */
    method SetSessionSwk(session: string, b: Id)
      requires BuffersConserved(Abs()) && Swk(session) in places && b in buffers
      modifies this
      ensures Abs() == UpdateSwk(old(Abs()), Swk(session), b)
    {
      var k := Swk(session);
      if buffers[places[k]].data != buffers[b].data {
        Release(k);
        BufferRef(b);
        places := places[k := b];
      }
    }
  }
}
