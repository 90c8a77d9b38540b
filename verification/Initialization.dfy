/** Re-entrant initialisation of the PKCS#11 module: C_Initialize, which preloads keys the first time round, and the loads
    that may call it again when they create a token. api-module/pkcs11/src/pkcs11-apimodule.cpp:115-136, 170-175 and
    492-532, with utils.c:398-416. */
module Initialization {
  import opened Strings

  /** The values of `preload_keys_flag`, which wraps around. */
  const WORD := 0x1_0000_0000

  /** One key load: for each token that it creates, whether the library behind C_Initialize then accepts the call, by CKR_OK
      or CKR_CRYPTOKI_ALREADY_INITIALIZED; and whether the load returns CKR_OK. */
  datatype Attempt = Attempt(reinits: seq<bool>, loaded: bool)

  /** The preload_keys directive: missing, naming a file that cannot be opened, or naming a readable file. */
  datatype PreloadFile = NotConfigured | Unreadable | Readable(lines: nat)

  /** What the module cannot see: the file, and how the n-th key load of all goes. */
  datatype World = World(file: PreloadFile, attempt: nat -> Attempt)

  /** The flag, and what happened so far: accepted calls, preloads begun, key loads, and how many C_Initialize calls were
      ever active at once. */
  datatype Counts = Counts(flag: nat, accepted: nat, preloads: nat, loads: nat, deepest: nat)

  const START := Counts(0, 0, 0, 0, 0)

  /** The outcome of a preload, with the numbers of the loads that it made itself. */
  datatype Preloading = Preloading(s: Counts, ret: bool, made: seq<nat>)

  function Entered(s: Counts, level: nat): (r: Counts) {
    if s.deepest < level then s.(deepest := level) else s
  }

  function Accepted(s: Counts): (r: Counts) {
    s.(flag := (s.flag + 1) % WORD, accepted := s.accepted + 1)
  }

  // ----- The calls -----

  /** C_Initialize as the level-th active call of its kind. A preload may set off further calls, and those another preload,
      without end; None says that preloads nest deeper than `depth`. */
  function Initialize(w: World, s: Counts, level: nat, accepted: bool, depth: nat): (r: Option<Counts>)
    decreases depth, 0, 0
  {
    var s1 := Entered(s, level);
    if !accepted then Some(s1)
    else if s1.flag != 0 then Some(Accepted(s1))
    else if depth == 0 then None
    else
      var p := Preload(w, Accepted(s1).(preloads := s1.preloads + 1), level, depth - 1);
      if p.None? then None else Some(p.value.s)
  }

  /** `apimodule_preload_keys` */
  function Preload(w: World, s: Counts, level: nat, depth: nat): (r: Option<Preloading>)
    decreases depth, 3, 0
  {
    if w.file.Readable? then LoadLines(w, s, level, w.file.lines, false, depth) else Some(Preloading(s, false, []))
  }

  /** The lines that are left of the file. The first load that fails ends it. */
  function LoadLines(w: World, s: Counts, level: nat, left: nat, ret: bool, depth: nat): (r: Option<Preloading>)
    decreases depth, 2, left
  {
    if left == 0 then Some(Preloading(s, ret, []))
    else
      var s1 := LoadKey(w, s, level, depth);
      if s1.None? then None
      else if !w.attempt(s.loads).loaded then Some(Preloading(s1.value, false, [s.loads]))
      else
        var p := LoadLines(w, s1.value, level, left - 1, true, depth);
        if p.None? then None else Some(p.value.(made := [s.loads] + p.value.made))
  }

  /** C_OnDemand_KeyLoad as far as it touches the flag, while `level` initialise calls are active. */
  function LoadKey(w: World, s: Counts, level: nat, depth: nat): (r: Option<Counts>)
    decreases depth, 2, 0
  {
    Reinits(w, s.(loads := s.loads + 1), level, w.attempt(s.loads).reinits, depth)
  }

  /** Every token that a load creates is followed by C_Finalize and C_Initialize. */
  function Reinits(w: World, s: Counts, level: nat, reinits: seq<bool>, depth: nat): (r: Option<Counts>)
    decreases depth, 1, |reinits|
  {
    if reinits == [] then Some(s)
    else
      var s1 := Initialize(w, s, level + 1, reinits[0], depth);
      if s1.None? then None else Reinits(w, s1.value, level, reinits[1..], depth)
  }

  // ----- More depth changes nothing -----

  lemma {:induction false} InitializeSame(w: World, s: Counts, level: nat, accepted: bool, depth: nat)
    requires Initialize(w, s, level, accepted, depth).Some?
    ensures Initialize(w, s, level, accepted, depth + 1) == Initialize(w, s, level, accepted, depth)
    decreases depth, 0, 0
  {
    var s1 := Entered(s, level);
    if accepted && s1.flag == 0 && w.file.Readable? {
      LinesSame(w, Accepted(s1).(preloads := s1.preloads + 1), level, w.file.lines, false, depth - 1);
    }
  }

  lemma {:induction false} LinesSame(w: World, s: Counts, level: nat, left: nat, ret: bool, depth: nat)
    requires LoadLines(w, s, level, left, ret, depth).Some?
    ensures LoadLines(w, s, level, left, ret, depth + 1) == LoadLines(w, s, level, left, ret, depth)
    decreases depth, 2, left
  {
    if left > 0 {
      ReinitsSame(w, s.(loads := s.loads + 1), level, w.attempt(s.loads).reinits, depth);
      if w.attempt(s.loads).loaded {
        LinesSame(w, LoadKey(w, s, level, depth).value, level, left - 1, true, depth);
      }
    }
  }

  lemma {:induction false} ReinitsSame(w: World, s: Counts, level: nat, reinits: seq<bool>, depth: nat)
    requires Reinits(w, s, level, reinits, depth).Some?
    ensures Reinits(w, s, level, reinits, depth + 1) == Reinits(w, s, level, reinits, depth)
    decreases depth, 1, |reinits|
  {
    if reinits != [] {
      InitializeSame(w, s, level + 1, reinits[0], depth);
      ReinitsSame(w, Initialize(w, s, level + 1, reinits[0], depth).value, level, reinits[1..], depth);
    }
  }

  /** A call that ends has one outcome, however deep one is prepared to look. */
  lemma {:induction false} DepthIrrelevant(w: World, s: Counts, level: nat, accepted: bool, depth: nat, more: nat)
    requires Initialize(w, s, level, accepted, depth).Some?
    ensures Initialize(w, s, level, accepted, depth + more) == Initialize(w, s, level, accepted, depth)
    decreases more
  {
    if more > 0 {
      DepthIrrelevant(w, s, level, accepted, depth, more - 1);
      InitializeSame(w, s, level, accepted, depth + more - 1);
    }
  }

  // ----- Counting preloads -----

  /** The number of multiples of WORD below n. */
  function Laps(n: nat): (k: nat) {
    (n + WORD - 1) / WORD
  }

  /** The flag counts accepted calls, and a preload began at each multiple of WORD. */
  predicate Counted(s: Counts) {
    s.flag == s.accepted % WORD && s.preloads == Laps(s.accepted)
  }

  /** Calls are nested no deeper than one for each preload, and one besides. */
  predicate Shallow(s: Counts) {
    s.deepest <= s.preloads + 1
  }

  lemma LapsStep(n: nat)
    ensures Laps(n + 1) == Laps(n) + if n % WORD == 0 then 1 else 0
    ensures (n + 1) % WORD == (n % WORD + 1) % WORD
  {
  }

  lemma AcceptedCounts(s: Counts)
    ensures Counted(s) && s.flag != 0 ==> Counted(Accepted(s))
    ensures Counted(s) && s.flag == 0 ==> Counted(Accepted(s).(preloads := s.preloads + 1))
  {
    LapsStep(s.accepted);
  }

  /** Nothing is forgotten on the way from s to r, and only preloads load keys. */
  predicate Onwards(s: Counts, r: Counts) {
    && s.accepted <= r.accepted && s.preloads <= r.preloads && s.loads <= r.loads && s.deepest <= r.deepest
    && (r.preloads == s.preloads ==> r.loads == s.loads)
  }

  /** However calls nest, a preload begins at every WORD-th accepted call, starting with the first, and at no other; and no
      more than one call is active for each of them, and one besides. */
  lemma {:induction false} InitializeCounts(w: World, s: Counts, level: nat, accepted: bool, depth: nat)
    requires Initialize(w, s, level, accepted, depth).Some?
    ensures var r := Initialize(w, s, level, accepted, depth).value;
            && Onwards(s, r) && (accepted ==> r.accepted > s.accepted)
            && (Counted(s) ==> Counted(r))
            && (Shallow(s) && level <= s.preloads + 1 ==> Shallow(r))
    decreases depth, 0, 0
  {
    var s1 := Entered(s, level);
    AcceptedCounts(s1);
    if accepted && s1.flag == 0 && w.file.Readable? {
      LinesCount(w, Accepted(s1).(preloads := s1.preloads + 1), level, w.file.lines, false, depth - 1);
    }
  }

  lemma {:induction false} LinesCount(w: World, s: Counts, level: nat, left: nat, ret: bool, depth: nat)
    requires LoadLines(w, s, level, left, ret, depth).Some?
    ensures var p := LoadLines(w, s, level, left, ret, depth).value;
            && (Counted(s) ==> Counted(p.s)) && (Shallow(s) && level <= s.preloads ==> Shallow(p.s))
            && s.accepted <= p.s.accepted && s.preloads <= p.s.preloads && s.loads <= p.s.loads
            && s.deepest <= p.s.deepest
    decreases depth, 2, left
  {
    if left > 0 {
      ReinitsCount(w, s.(loads := s.loads + 1), level, w.attempt(s.loads).reinits, depth);
      if w.attempt(s.loads).loaded {
        LinesCount(w, LoadKey(w, s, level, depth).value, level, left - 1, true, depth);
      }
    }
  }

  lemma {:induction false} ReinitsCount(w: World, s: Counts, level: nat, reinits: seq<bool>, depth: nat)
    requires Reinits(w, s, level, reinits, depth).Some?
    ensures var r := Reinits(w, s, level, reinits, depth).value;
            Onwards(s, r) && (Counted(s) ==> Counted(r)) && (Shallow(s) && level <= s.preloads ==> Shallow(r))
    decreases depth, 1, |reinits|
  {
    if reinits != [] {
      InitializeCounts(w, s, level + 1, reinits[0], depth);
      ReinitsCount(w, Initialize(w, s, level + 1, reinits[0], depth).value, level, reinits[1..], depth);
    }
  }

  /** Before the flag wraps around, the initialise calls made by a load begin no preload: each of them only counts. */
  lemma ReinitsOnlyCount(w: World, s: Counts, level: nat, reinits: seq<bool>, depth: nat)
    requires Counted(s) && s.accepted > 0 && Reinits(w, s, level, reinits, depth).Some?
    requires Reinits(w, s, level, reinits, depth).value.accepted <= WORD
    ensures var r := Reinits(w, s, level, reinits, depth).value;
            r.preloads == s.preloads && r.loads == s.loads && (Shallow(s) && level <= s.preloads ==> r.deepest <= 2)
  {
    ReinitsCount(w, s, level, reinits, depth);
  }

  // ----- What a preload does -----

  /** A preload attempts its lines in turn, up to the first that fails. While no preload nests in it, its loads follow each
      other without a gap. */
  lemma {:induction false} LinesExact(w: World, s: Counts, level: nat, left: nat, ret: bool, depth: nat)
    requires LoadLines(w, s, level, left, ret, depth).Some?
    ensures var p := LoadLines(w, s, level, left, ret, depth).value;
            && |p.made| <= left
            && (forall i :: 0 <= i < |p.made| - 1 ==> w.attempt(p.made[i]).loaded)
            && (|p.made| < left ==> p.made != [] && !w.attempt(p.made[|p.made| - 1]).loaded)
            && (p.ret <==> if left == 0 then ret else |p.made| == left && w.attempt(p.made[left - 1]).loaded)
            && (p.s.preloads == s.preloads ==>
                  p.s.loads == s.loads + |p.made| && forall i :: 0 <= i < |p.made| ==> p.made[i] == s.loads + i)
    decreases left
  {
    if left > 0 {
      ReinitsCount(w, s.(loads := s.loads + 1), level, w.attempt(s.loads).reinits, depth);
      if w.attempt(s.loads).loaded {
        var s1 := LoadKey(w, s, level, depth).value;
        LinesCount(w, s1, level, left - 1, true, depth);
        LinesExact(w, s1, level, left - 1, true, depth);
      }
    }
  }

  /** A preload returns TRUE exactly when there is a file with at least one line and every line loads. */
  lemma PreloadResult(w: World, s: Counts, level: nat, depth: nat)
    requires Preload(w, s, level, depth).Some?
    ensures var p := Preload(w, s, level, depth).value;
            p.ret <==> && w.file.Readable? && w.file.lines > 0 && |p.made| == w.file.lines
                       && forall i :: 0 <= i < |p.made| ==> w.attempt(p.made[i]).loaded
  {
    if w.file.Readable? {
      LinesExact(w, s, level, w.file.lines, false, depth);
    }
  }

  /** The first accepted call preloads once, and as long as the flag does not wrap around, the calls nested in it only count:
      the loads made are those of the lines, up to the first that fails. */
  lemma FirstCallPreloads(w: World, s: Counts, level: nat, depth: nat)
    requires Counted(s) && s.accepted == 0 && Initialize(w, s, level, true, depth).Some?
    requires Initialize(w, s, level, true, depth).value.accepted <= WORD
    ensures var r := Initialize(w, s, level, true, depth).value;
            && r.preloads == 1
            && (if !w.file.Readable? then r.loads == s.loads
                else
                  && r.loads <= s.loads + w.file.lines
                  && (forall n :: s.loads <= n < r.loads - 1 ==> w.attempt(n).loaded)
                  && (r.loads < s.loads + w.file.lines ==> r.loads > s.loads && !w.attempt(r.loads - 1).loaded))
  {
    var s1 := Entered(s, level);
    AcceptedCounts(s1);
    InitializeCounts(w, s, level, true, depth);
    if w.file.Readable? {
      var s2 := Accepted(s1).(preloads := s1.preloads + 1);
      LinesExact(w, s2, level, w.file.lines, false, depth - 1);
      var p := LoadLines(w, s2, level, w.file.lines, false, depth - 1).value;
      assert p.s == Initialize(w, s, level, true, depth).value;
      forall n | s.loads <= n < s.loads + |p.made| - 1
        ensures w.attempt(n).loaded
      {
        assert p.made[n - s.loads] == n;
      }
    }
  }

  /** How many of these calls are accepted. */
  function Trues(reinits: seq<bool>): (n: nat) {
    if reinits == [] then 0 else Trues(reinits[1..]) + if reinits[0] then 1 else 0
  }

  /** How many of the calls set off by these loads are accepted. */
  function AcceptedIn(w: World, made: seq<nat>): (n: nat) {
    if made == [] then 0 else Trues(w.attempt(made[0]).reinits) + AcceptedIn(w, made[1..])
  }

  lemma {:induction false} ReinitsAccept(w: World, s: Counts, level: nat, reinits: seq<bool>)
    requires Reinits(w, s, level, reinits, 0).Some?
    ensures var r := Reinits(w, s, level, reinits, 0).value;
            r.accepted == s.accepted + Trues(reinits) && r.preloads == s.preloads && r.loads == s.loads
    decreases |reinits|
  {
    if reinits != [] {
      ReinitsAccept(w, Initialize(w, s, level + 1, reinits[0], 0).value, level, reinits[1..]);
    }
  }

  /** A preload in which no other nests makes every initialise call that its loads set off, that of a failing load too. */
  lemma {:induction false} LinesAccept(w: World, s: Counts, level: nat, left: nat, ret: bool)
    requires LoadLines(w, s, level, left, ret, 0).Some?
    ensures var p := LoadLines(w, s, level, left, ret, 0).value;
            p.s.accepted == s.accepted + AcceptedIn(w, p.made) && p.s.preloads == s.preloads
    decreases left
  {
    if left > 0 {
      ReinitsAccept(w, s.(loads := s.loads + 1), level, w.attempt(s.loads).reinits);
      var p := LoadLines(w, s, level, left, ret, 0).value;
      if w.attempt(s.loads).loaded {
        LinesAccept(w, LoadKey(w, s, level, 0).value, level, left - 1, true);
        assert p.made[1..] == LoadLines(w, LoadKey(w, s, level, 0).value, level, left - 1, true, 0).value.made;
      } else {
        assert p.made == [s.loads] && p.made[1..] == [];
        assert AcceptedIn(w, []) == 0;
      }
    }
  }

  // ----- Termination -----

  /** The initialise calls set off by the next k loads. */
  function CallsIn(w: World, n: nat, k: nat): (calls: nat)
    decreases k
  {
    if k == 0 then 0 else |w.attempt(n).reinits| + CallsIn(w, n + 1, k - 1)
  }

  /** No preload, whenever it comes, sets off as many calls as the flag has values. */
  ghost predicate Calm(w: World) {
    w.file.Readable? ==> forall n: nat :: CallsIn(w, n, w.file.lines) < WORD
  }

  /** The flag is away from zero at each of the next n calls, whichever of them are accepted. */
  predicate Room(flag: nat, n: nat) {
    flag < WORD && (n == 0 || (0 < flag && flag + n <= WORD))
  }

  lemma {:induction false} ReinitsEnd(w: World, s: Counts, level: nat, reinits: seq<bool>, later: nat)
    requires Room(s.flag, |reinits| + later)
    ensures Reinits(w, s, level, reinits, 0).Some?
    ensures var r := Reinits(w, s, level, reinits, 0).value; Room(r.flag, later) && r.loads == s.loads
    decreases |reinits|
  {
    if reinits != [] {
      ReinitsEnd(w, Initialize(w, s, level + 1, reinits[0], 0).value, level, reinits[1..], later);
    }
  }

  lemma {:induction false} LinesEnd(w: World, s: Counts, level: nat, left: nat, ret: bool)
    requires Room(s.flag, CallsIn(w, s.loads, left))
    ensures LoadLines(w, s, level, left, ret, 0).Some?
    ensures LoadLines(w, s, level, left, ret, 0).value.s.flag < WORD
    decreases left
  {
    if left > 0 {
      var s1 := s.(loads := s.loads + 1);
      ReinitsEnd(w, s1, level, w.attempt(s.loads).reinits, CallsIn(w, s.loads + 1, left - 1));
      LinesEnd(w, LoadKey(w, s, level, 0).value, level, left - 1, true);
    }
  }

  /** The flag makes initialisation end: as long as no preload sets off 2^32 calls or more, no preload begins within
      another, whatever the flag was at the start. */
  lemma InitializeEnds(w: World, s: Counts, level: nat, accepted: bool)
    requires Calm(w) && s.flag < WORD
    ensures Initialize(w, s, level, accepted, 1).Some? && Initialize(w, s, level, accepted, 1).value.flag < WORD
  {
    var s1 := Entered(s, level);
    if accepted && s1.flag == 0 && w.file.Readable? {
      LinesEnd(w, Accepted(s1).(preloads := s1.preloads + 1), level, w.file.lines, false);
    }
  }

  lemma {:induction false} LoadEnds(w: World, s: Counts, level: nat, reinits: seq<bool>)
    requires Calm(w) && s.flag < WORD
    ensures Reinits(w, s, level, reinits, 1).Some? && Reinits(w, s, level, reinits, 1).value.flag < WORD
    decreases |reinits|
  {
    if reinits != [] {
      InitializeEnds(w, s, level + 1, reinits[0]);
      LoadEnds(w, Initialize(w, s, level + 1, reinits[0], 1).value, level, reinits[1..]);
    }
  }

  /** One line whose load sets off 2^32 accepted calls. */
  const STORM := World(Readable(1), n => Attempt(seq(WORD, _ => true), true))

  predicate AllTrue(reinits: seq<bool>) {
    forall i :: 0 <= i < |reinits| ==> reinits[i]
  }

  ghost predicate NeverFromZero(w: World, depth: nat) {
    forall s: Counts, level: nat :: s.flag == 0 ==> Initialize(w, s, level, true, depth).None?
  }

  lemma {:induction false} LapNeverEnds(w: World, s: Counts, level: nat, reinits: seq<bool>, depth: nat)
    requires NeverFromZero(w, depth) && AllTrue(reinits)
    requires s.flag < WORD && |reinits| > (if s.flag == 0 then 0 else WORD - s.flag)
    ensures Reinits(w, s, level, reinits, depth).None?
    decreases |reinits|
  {
    if s.flag == 0 {
      assert Initialize(w, s, level + 1, true, depth).None?;
    } else {
      LapNeverEnds(w, Initialize(w, s, level + 1, true, depth).value, level, reinits[1..], depth);
    }
  }

  /** The bound is sharp: one call more, and initialisation never ends. */
  lemma {:induction false} StormNeverEnds(depth: nat)
    ensures NeverFromZero(STORM, depth)
  {
    if depth > 0 {
      StormNeverEnds(depth - 1);
      forall s: Counts, level: nat | s.flag == 0
        ensures Initialize(STORM, s, level, true, depth).None?
      {
        StormRound(s, level, depth);
      }
    }
  }

  lemma StormRound(s: Counts, level: nat, depth: nat)
    requires depth > 0 && s.flag == 0 && NeverFromZero(STORM, depth - 1)
    ensures Initialize(STORM, s, level, true, depth).None?
  {
    var s1 := Accepted(Entered(s, level)).(preloads := Entered(s, level).preloads + 1);
    var calls := STORM.attempt(s1.loads).reinits;
    assert |calls| == WORD && AllTrue(calls);
    LapNeverEnds(STORM, s1.(loads := s1.loads + 1), level, calls, depth - 1);
    assert LoadLines(STORM, s1, level, 1, false, depth - 1).None?;
  }

  // ----- Whole runs -----

  /** What an application does: initialise, or load a key on demand. Finalising changes none of this. */
  datatype AppCall = Init(accepted: bool) | Load

  function AppStep(w: World, s: Counts, a: AppCall, depth: nat): (r: Option<Counts>) {
    match a
    case Init(accepted) => Initialize(w, s, 1, accepted, depth)
    case Load => LoadKey(w, s, 0, depth)
  }

  function AppRun(w: World, s: Counts, run: seq<AppCall>, depth: nat): (r: Option<Counts>)
    decreases |run|
  {
    if run == [] then Some(s)
    else
      var s1 := AppStep(w, s, run[0], depth);
      if s1.None? then None else AppRun(w, s1.value, run[1..], depth)
  }

  lemma AppStepCounts(w: World, s: Counts, a: AppCall, depth: nat)
    requires Counted(s) && Shallow(s) && AppStep(w, s, a, depth).Some?
    ensures var r := AppStep(w, s, a, depth).value;
            Counted(r) && Shallow(r) && s.accepted <= r.accepted
  {
    match a
    case Init(accepted) => InitializeCounts(w, s, 1, accepted, depth);
    case Load => ReinitsCount(w, s.(loads := s.loads + 1), 0, w.attempt(s.loads).reinits, depth);
  }

  lemma {:induction false} AppRunCounts(w: World, s: Counts, run: seq<AppCall>, depth: nat)
    requires Counted(s) && Shallow(s) && AppRun(w, s, run, depth).Some?
    ensures var r := AppRun(w, s, run, depth).value;
            Counted(r) && Shallow(r) && s.accepted <= r.accepted
    decreases |run|
  {
    if run != [] {
      AppStepCounts(w, s, run[0], depth);
      AppRunCounts(w, AppStep(w, s, run[0], depth).value, run[1..], depth);
    }
  }

  /** Over any run that ends, keys are preloaded at most once exactly as long as no more than 2^32 calls were accepted, and
      at least once exactly when some call was. */
  lemma PreloadsAtMostOnce(w: World, run: seq<AppCall>, depth: nat)
    requires AppRun(w, START, run, depth).Some?
    ensures var r := AppRun(w, START, run, depth).value;
            && (r.preloads <= 1 <==> r.accepted <= 0x1_0000_0000)
            && (r.preloads >= 1 <==> r.accepted >= 1)
            && r.preloads == (r.accepted + 0xFFFF_FFFF) / 0x1_0000_0000
            && r.flag == r.accepted % 0x1_0000_0000
  {
    AppRunCounts(w, START, run, depth);
  }

  /** Over any run that ends, calls are nested at most one deeper than the flag has gone round; so up to 2^32 accepted calls
      at most two are ever active at once. */
  lemma NestingIsBounded(w: World, run: seq<AppCall>, depth: nat)
    requires AppRun(w, START, run, depth).Some?
    ensures var r := AppRun(w, START, run, depth).value;
            r.deepest <= (r.accepted + 0xFFFF_FFFF) / 0x1_0000_0000 + 1 && (r.accepted <= 0x1_0000_0000 ==> r.deepest <= 2)
  {
    AppRunCounts(w, START, run, depth);
  }

  /** In a calm world every run ends. */
  lemma {:induction false} CalmRunsEnd(w: World, s: Counts, run: seq<AppCall>)
    requires Calm(w) && s.flag < WORD
    ensures AppRun(w, s, run, 1).Some?
    decreases |run|
  {
    if run != [] {
      match run[0] {
        case Init(accepted) => InitializeEnds(w, s, 1, accepted);
        case Load => LoadEnds(w, s.(loads := s.loads + 1), 0, w.attempt(s.loads).reinits);
      }
      CalmRunsEnd(w, AppStep(w, s, run[0], 1).value, run[1..]);
    }
  }

  function Deeper(a: nat, b: nat): (n: nat) {
    if a > b then a else b
  }

  /** How many tokens these loads create. */
  function TokensIn(w: World, made: seq<nat>): (n: nat) {
    if made == [] then 0 else |w.attempt(made[0]).reinits| + TokensIn(w, made[1..])
  }

  lemma {:induction false} ReinitsDepth(w: World, s: Counts, level: nat, reinits: seq<bool>)
    requires Reinits(w, s, level, reinits, 0).Some?
    ensures Reinits(w, s, level, reinits, 0).value.deepest == if reinits == [] then s.deepest else Deeper(s.deepest, level + 1)
    decreases |reinits|
  {
    if reinits != [] {
      ReinitsDepth(w, Initialize(w, s, level + 1, reinits[0], 0).value, level, reinits[1..]);
    }
  }

  /** A preload in which no other nests is one call deeper than itself exactly when one of its loads creates a token. */
  lemma {:induction false} LinesDepth(w: World, s: Counts, level: nat, left: nat, ret: bool)
    requires LoadLines(w, s, level, left, ret, 0).Some?
    ensures var p := LoadLines(w, s, level, left, ret, 0).value;
            p.s.deepest == if TokensIn(w, p.made) == 0 then s.deepest else Deeper(s.deepest, level + 1)
    decreases left
  {
    if left > 0 {
      ReinitsDepth(w, s.(loads := s.loads + 1), level, w.attempt(s.loads).reinits);
      if w.attempt(s.loads).loaded {
        var s1 := LoadKey(w, s, level, 0).value;
        LinesDepth(w, s1, level, left - 1, true);
        assert LoadLines(w, s, level, left, ret, 0).value.made[1..] == LoadLines(w, s1, level, left - 1, true, 0).value.made;
      } else {
        assert TokensIn(w, []) == 0;
      }
    }
  }

  /** Every call is counted as active. */
  lemma CallIsActive(w: World, s: Counts, level: nat, accepted: bool, depth: nat)
    requires Initialize(w, s, level, accepted, depth).Some?
    ensures Initialize(w, s, level, accepted, depth).value.deepest >= level
  {
    var s1 := Entered(s, level);
    if accepted && s1.flag == 0 && w.file.Readable? {
      LinesCount(w, Accepted(s1).(preloads := s1.preloads + 1), level, w.file.lines, false, depth - 1);
    }
  }

  lemma OneCallDepth(w: World, s: Counts, accepted: bool)
    requires s.deepest <= 2 && Initialize(w, s, 1, accepted, 1).Some?
    ensures Initialize(w, s, 1, accepted, 1).value.deepest <= 2
  {
    var s1 := Entered(s, 1);
    if accepted && s1.flag == 0 && w.file.Readable? {
      LinesDepth(w, Accepted(s1).(preloads := s1.preloads + 1), 1, w.file.lines, false);
    }
  }

  lemma {:induction false} OneLoadDepth(w: World, s: Counts, reinits: seq<bool>)
    requires s.deepest <= 2 && Reinits(w, s, 0, reinits, 1).Some?
    ensures Reinits(w, s, 0, reinits, 1).value.deepest <= 2
    decreases |reinits|
  {
    if reinits != [] {
      OneCallDepth(w, s, reinits[0]);
      OneLoadDepth(w, Initialize(w, s, 1, reinits[0], 1).value, reinits[1..]);
    }
  }

  /** And at most two calls are ever active at once, however often the flag has gone round. */
  lemma {:induction false} CalmNesting(w: World, s: Counts, run: seq<AppCall>)
    requires s.deepest <= 2 && AppRun(w, s, run, 1).Some?
    ensures AppRun(w, s, run, 1).value.deepest <= 2
    decreases |run|
  {
    if run != [] {
      match run[0] {
        case Init(accepted) => OneCallDepth(w, s, accepted);
        case Load => OneLoadDepth(w, s.(loads := s.loads + 1), w.attempt(s.loads).reinits);
      }
      CalmNesting(w, AppStep(w, s, run[0], 1).value, run[1..]);
    }
  }

  // ----- The module in place -----

  class ApiModule {
    const world: World
    var flag: nat
    var loads: nat
    ghost var accepted: nat
    ghost var preloads: nat
    ghost var deepest: nat

    constructor (world: World)
      ensures Abs() == START && this.world == world
    {
      this.world, flag, loads, accepted, preloads, deepest := world, 0, 0, 0, 0, 0;
    }

    ghost function Abs(): (s: Counts)
      reads this
    {
      Counts(flag, accepted, preloads, loads, deepest)
    }

    /** C_Initialize. The flag counts before the preload begins, which is what keeps nested calls out of it and makes the
        recursion end: only a call that finds the flag at zero goes any deeper. */
    method CInitialize(ghost level: nat, ok: bool)
      requires Calm(world) && flag < WORD
      modifies this
      ensures flag < WORD && Initialize(world, old(Abs()), level, ok, 1) == Some(Abs())
      decreases if flag == 0 then 1 else 0, 0
    {
      deepest := if deepest < level then level else deepest;
      if ok {
        var before := flag;
        flag := (flag + 1) % WORD;
        accepted := accepted + 1;
        if before == 0 {
          preloads := preloads + 1;
          var ret, made := PreloadKeys(level);
        }
      }
    }

    /** `apimodule_preload_keys`, called when the flag has just gone from zero to one. */
    method PreloadKeys(ghost level: nat) returns (ret: bool, ghost made: seq<nat>)
      requires Calm(world) && flag == 1
      modifies this
      ensures flag < WORD && Preload(world, old(Abs()), level, 0) == Some(Preloading(Abs(), ret, made))
      decreases 0, 2
    {
      ret, made := false, [];
      if world.file.Readable? {
        var left, failed := world.file.lines, false;
        ghost var start := Abs();
        ContinuedNone(LoadLines(world, start, level, left, ret, 0));
        while left > 0 && !failed
          invariant flag < WORD && (!failed ==> Room(flag, CallsIn(world, loads, left)))
          invariant failed ==> !ret
          invariant made + [] == made
          invariant LoadLines(world, start, level, world.file.lines, false, 0) ==
                      if failed then Some(Preloading(Abs(), ret, made)) else
                        Continued(LoadLines(world, Abs(), level, left, ret, 0), made)
          decreases left
        {
          var outcome := world.attempt(loads);
          ghost var before := Abs();
          LoadOnDemand(level, true, CallsIn(world, loads + 1, left - 1));
          ContinuedStep(world, before, level, left, ret, made);
          made := made + [before.loads];
          ret := outcome.loaded;
          failed := !ret;
          left := left - 1;
        }
      }
    }

    /** C_OnDemand_KeyLoad as far as it touches the flag: from within a preload, or called by the application. */
    method LoadOnDemand(ghost level: nat, ghost inside: bool, ghost later: nat)
      requires Calm(world) && flag < WORD
      requires inside ==> Room(flag, |world.attempt(loads).reinits| + later)
      modifies this
      ensures flag < WORD && (inside ==> Room(flag, later) && loads == old(loads) + 1)
      ensures LoadKey(world, old(Abs()), level, if inside then 0 else 1) == Some(Abs())
      decreases if inside then 0 else 1, 1
    {
      var reinits := world.attempt(loads).reinits;
      loads := loads + 1;
      ghost var start := Abs();
      for j := 0 to |reinits|
        invariant flag < WORD
        invariant inside ==> Room(flag, |reinits| - j + later) && loads == start.loads
        invariant Reinits(world, Abs(), level, reinits[j..], if inside then 0 else 1)
                  == Reinits(world, start, level, reinits, if inside then 0 else 1)
      {
        assert reinits[j..][0] == reinits[j] && reinits[j..][1..] == reinits[j + 1..];
        ghost var before := Abs();
        CInitialize(level + 1, reinits[j]);
        AwayFromZero(world, before, level + 1, reinits[j], |reinits| - j - 1 + later);
      }
    }
  }

  /** A call that finds the flag away from zero begins no preload, so the depth makes no difference. */
  lemma AwayFromZero(w: World, s: Counts, level: nat, accepted: bool, later: nat)
    ensures Room(s.flag, later + 1) ==>
              && Initialize(w, s, level, accepted, 0) == Initialize(w, s, level, accepted, 1)
              && Initialize(w, s, level, accepted, 0).Some?
              && var r := Initialize(w, s, level, accepted, 0).value; Room(r.flag, later) && r.loads == s.loads
  {
  }

  /** The outcome of the rest of a preload, put behind what was made before. */
  function Continued(p: Option<Preloading>, made: seq<nat>): (r: Option<Preloading>) {
    if p.None? then None else Some(p.value.(made := made + p.value.made))
  }

  lemma ContinuedNone(p: Option<Preloading>)
    ensures Continued(p, []) == p
  {
    if p.Some? {
      assert [] + p.value.made == p.value.made;
    }
  }

  lemma ContinuedStep(w: World, s: Counts, level: nat, left: nat, ret: bool, made: seq<nat>)
    requires left > 0 && LoadKey(w, s, level, 0).Some?
    ensures var s1 := LoadKey(w, s, level, 0).value;
            Continued(LoadLines(w, s, level, left, ret, 0), made) ==
              if w.attempt(s.loads).loaded then Continued(LoadLines(w, s1, level, left - 1, true, 0), made + [s.loads])
              else Some(Preloading(s1, false, made + [s.loads]))
  {
    var rest := LoadLines(w, LoadKey(w, s, level, 0).value, level, left - 1, true, 0);
    if w.attempt(s.loads).loaded && rest.Some? {
      assert made + ([s.loads] + rest.value.made) == (made + [s.loads]) + rest.value.made;
    }
  }
}
