/** Names of symmetric wrapping key types: key-agent/src/session.cpp:3-6 and 139-170. */
module SwkTypes {
  import opened Strings

  const SUPPORTED: seq<string> :=
    ["AES128-GCM", "AES192-GCM", "AES256-GCM", "AES128-WRAP", "AES192-WRAP", "AES256-WRAP"]

  const PREFIX := "KEYAGENT_SWKTYPE_"

  /** The text whose quark names a type: split on '-', join with '_', put the prefix in front. */
  function MakeSwkType(name: string): (quark: string) {
    PREFIX + Join("_", Split(name, '-'))
  }

  /** The independent description of the same text: every '-' becomes '_'. */
  function Underscored(s: string): (t: string) {
    seq(|s|, i requires 0 <= i < |s| => if s[i] == '-' then '_' else s[i])
  }

  lemma {:induction false} JoinOfPieces(s: string)
    ensures Join("_", Pieces(s, '-')) == Underscored(s)
  {
    if s != "" {
      JoinOfPieces(s[1..]);
      var rest := Pieces(s[1..], '-');
      var joined := Join("_", rest);
      assert Underscored(s) == [if s[0] == '-' then '_' else s[0]] + Underscored(s[1..]);
      if s[0] == '-' {
        assert Pieces(s, '-')[1..] == rest;
      } else {
        assert ([[s[0]] + rest[0]] + rest[1..])[1..] == rest[1..];
        assert Pieces(s, '-')[1..] == rest[1..];
        if |rest| > 1 {
          assert joined == rest[0] + ("_" + Join("_", rest[1..]));
        }
      }
    }
  }

  lemma SplitThenJoin(s: string)
    ensures Join("_", Split(s, '-')) == Underscored(s)
    ensures |Join("_", Split(s, '-'))| == |s|
    ensures MakeSwkType(s) == PREFIX + Underscored(s)
    ensures MakeSwkType(Join("_", Split(s, '-'))) == MakeSwkType(s)
  {
    JoinOfPieces(s);
    var u := Underscored(s);
    JoinOfPieces(u);
    assert Underscored(u) == u;
  }

  /** The table that the init loop fills, as a function of how many names were registered so far. */
  function Registered(n: nat): (table: map<string, string>)
    requires n <= |SUPPORTED|
  {
    if n == 0 then map[] else Registered(n - 1)[MakeSwkType(SUPPORTED[n - 1]) := SUPPORTED[n - 1]]
  }

  /** `__keyagent_session_init`: the loop over the supported names. */
  method InitSwkTypes() returns (table: map<string, string>)
    ensures table == Registered(|SUPPORTED|)
  {
    table := map[];
    for i := 0 to |SUPPORTED|
      invariant table == Registered(i)
    {
      table := table[MakeSwkType(SUPPORTED[i]) := SUPPORTED[i]];
    }
  }

  /** `__keyagent_session_lookup_swktype`: None stands for the zero quark. */
  function LookupSwkType(name: string): (quark: Option<string>) {
    var q := MakeSwkType(name);
    if q in Registered(|SUPPORTED|) then Some(q) else None
  }

  const FORMS: seq<string> :=
    ["AES128_GCM", "AES192_GCM", "AES256_GCM", "AES128_WRAP", "AES192_WRAP", "AES256_WRAP"]

  lemma {:induction false} RegisteredKeys(n: nat)
    requires n <= |SUPPORTED|
    ensures Registered(n).Keys == set i | 0 <= i < n :: MakeSwkType(SUPPORTED[i])
  {
    hide MakeSwkType;
    if n > 0 {
      RegisteredKeys(n - 1);
    }
  }

  lemma UnderscoredForms(i: nat)
    requires i < |SUPPORTED|
    ensures Underscored(SUPPORTED[i]) == FORMS[i]
  {
  }

  /** The six registered names stay six different table entries, and each entry maps back to its own name. */
  lemma SixDistinctTypes()
    ensures |Registered(|SUPPORTED|)| == 6
    ensures forall i, j :: 0 <= i < j < 6 ==> MakeSwkType(SUPPORTED[i]) != MakeSwkType(SUPPORTED[j])
    ensures forall i :: 0 <= i < 6 ==>
              MakeSwkType(SUPPORTED[i]) in Registered(6) && Registered(6)[MakeSwkType(SUPPORTED[i])] == SUPPORTED[i]
  {
    forall i, j | 0 <= i < j < 6
      ensures MakeSwkType(SUPPORTED[i]) != MakeSwkType(SUPPORTED[j])
    {
      SplitThenJoin(SUPPORTED[i]);
      SplitThenJoin(SUPPORTED[j]);
      UnderscoredForms(i);
      UnderscoredForms(j);
      FormsDiffer(i, j);
      assert MakeSwkType(SUPPORTED[i])[|PREFIX|..] == FORMS[i];
    }
    TableOfDistinct(6);
  }

  lemma FormsDiffer(i: nat, j: nat)
    requires i < j < 6
    ensures FORMS[i] != FORMS[j]
  {
    assert FORMS[i][4] != FORMS[j][4] || FORMS[i][7] != FORMS[j][7];
  }

  lemma {:induction false} TableOfDistinct(n: nat)
    requires n <= 6
    requires forall i, j :: 0 <= i < j < 6 ==> MakeSwkType(SUPPORTED[i]) != MakeSwkType(SUPPORTED[j])
    ensures |Registered(n)| == n
    ensures forall i :: 0 <= i < n ==>
              MakeSwkType(SUPPORTED[i]) in Registered(n) && Registered(n)[MakeSwkType(SUPPORTED[i])] == SUPPORTED[i]
  {
    hide MakeSwkType;
    if n > 0 {
      TableOfDistinct(n - 1);
      RegisteredKeys(n - 1);
      assert MakeSwkType(SUPPORTED[n - 1]) !in Registered(n - 1);
    }
  }

  /** Lookup succeeds exactly when the name, with '-' read as '_', is one of the six registered forms, and then yields the
      name of the quark that the STMs know it by. */
  lemma LookupIsExact(name: string)
    ensures LookupSwkType(name).Some? <==>
              Underscored(name) in ["AES128_GCM", "AES192_GCM", "AES256_GCM", "AES128_WRAP", "AES192_WRAP", "AES256_WRAP"]
    ensures LookupSwkType(name).Some? ==> LookupSwkType(name).value == "KEYAGENT_SWKTYPE_" + Underscored(name)
  {
    RegisteredKeys(6);
    SplitThenJoin(name);
    var q := MakeSwkType(name);
    forall i | 0 <= i < 6
      ensures q == MakeSwkType(SUPPORTED[i]) <==> Underscored(name) == FORMS[i]
    {
      SplitThenJoin(SUPPORTED[i]);
      UnderscoredForms(i);
      assert q[|PREFIX|..] == Underscored(name);
      assert MakeSwkType(SUPPORTED[i])[|PREFIX|..] == FORMS[i];
    }
  }

  lemma GcmIsKnown()
    ensures LookupSwkType("AES256-GCM").Some?
  {
    LookupIsExact("AES256-GCM");
    UnderscoredForms(2);
    assert SUPPORTED[2] == "AES256-GCM" && FORMS[2] in FORMS;
  }
}
