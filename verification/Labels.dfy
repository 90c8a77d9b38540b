/** Token labels and the search for a token's slot: api-module/pkcs11/src/utils.c:10-27, 150-210 and 232-234, with the
    search of the sample client, api-module/pkcs11/tests/aes-test/aes_encrypt_decrypt.cpp:56-142. */
module Labels {
  import opened Strings

  const LABEL_SIZE := 32

  function Blanks(n: nat): (s: string) {
    seq(n, _ => ' ')
  }

  /** The label that goes to C_InitToken: the name, 31 blanks behind it, cut to 32 characters. */
  function Padded(name: string): (padded: string) {
    var text := name + Blanks(31);
    if |text| <= LABEL_SIZE then text else text[..LABEL_SIZE]
  }

  /** The label without its trailing blanks. */
  function Trimmed(text: string): (s: string) {
    if text != "" && text[|text| - 1] == ' ' then Trimmed(text[..|text| - 1]) else text
  }

  /** `apimodule_utf8_to_char`; None is the NULL for a label that is blank all over. */
  method Utf8ToChar(buffer: string) returns (text: Option<string>)
    ensures text == if Trimmed(buffer) == "" then None else Some(Trimmed(buffer))
  {
    var len := |buffer|;
    if len <= 0 {
      return None;
    }
    assert buffer[..len] == buffer;
    while len != 0 && buffer[len - 1] == ' '
      invariant 0 <= len <= |buffer|
      invariant Trimmed(buffer[..len]) == Trimmed(buffer)
    {
      assert buffer[..len][..len - 1] == buffer[..len - 1];
      len := len - 1;
    }
    if len <= 0 {
      return None;
    }
    return Some(buffer[..len]);
  }

  lemma BlanksStep(s: string, n: nat)
    requires n > 0
    ensures var t := s + Blanks(n);
            t != "" && t[|t| - 1] == ' ' && t[..|t| - 1] == s + Blanks(n - 1)
  {
    hide Trimmed;
  }

  lemma {:induction false} TrimmedOfBlanks(s: string, n: nat)
    ensures Trimmed(s + Blanks(n)) == Trimmed(s)
  {
    if n == 0 {
      assert s + Blanks(0) == s;
    } else {
      TrimmedOfBlanks(s, n - 1);
      BlanksStep(s, n);
      assert Trimmed(s + Blanks(n)) == Trimmed(s + Blanks(n - 1));
    }
  }

  /** Trimming yields the longest prefix that does not end in a blank; what it cut off is blank. */
  lemma {:induction false} TrimmedIsPrefix(s: string)
    ensures Trimmed(s) <= s
    ensures Trimmed(s) != "" ==> Trimmed(s)[|Trimmed(s)| - 1] != ' '
    ensures s == Trimmed(s) + Blanks(|s| - |Trimmed(s)|)
  {
    if s != "" && s[|s| - 1] == ' ' {
      TrimmedIsPrefix(s[..|s| - 1]);
      var n := |s| - |Trimmed(s)|;
      assert s == s[..|s| - 1] + " ";
      assert Blanks(n) == Blanks(n - 1) + " ";
    } else {
      assert s == s + Blanks(0);
    }
  }

  /** A name of 1 to 32 characters fills a label, and trimming the label gives the name back exactly when the name does
      not end in a blank. */
  lemma LabelRoundTrip(name: string)
    requires 1 <= |name| <= 32
    ensures |Padded(name)| == 32
    ensures Trimmed(Padded(name)) == name <==> name[|name| - 1] != ' '
  {
    var n := LABEL_SIZE - |name|;
    assert Padded(name) == name + Blanks(n);
    TrimmedOfBlanks(name, n);
    TrimmedIsPrefix(name);
  }

  /** A longer name loses its end; no name at all leaves the label one character short. */
  lemma LabelsOfOtherNames(name: string)
    ensures |name| > 32 ==> Padded(name) == name[..32]
    ensures |Padded("")| == 31 && Trimmed(Padded("")) == ""
  {
    if |name| > 32 {
      assert (name + Blanks(31))[..32] == name[..32];
    }
    assert "" + Blanks(31) == Blanks(31);
    TrimmedOfBlanks("", 31);
  }

  // ----- Finding the slot -----

  /** A slot's id and, when C_GetTokenInfo succeeds on it, the label of its token. */
  datatype Slot = Slot(id: int, shown: Option<string>)

  /** The outcome of a Cryptoki call; `Broken(code)` is any return value but CKR_OK. */
  datatype Rv = CkrOk | Broken(code: int)

  /** `g_string_truncate` leaves a shorter string alone. */
  function Truncated(s: string, n: nat): (t: string) {
    if |s| <= n then s else s[..n]
  }

  /** The test of the search loop: cut the trimmed label to the wanted length and compare. */
  predicate Matches(slot: Slot, wanted: string) {
    && slot.shown.Some?
    && Trimmed(slot.shown.value) != ""
    && Truncated(Trimmed(slot.shown.value), |wanted|) == wanted
  }

  /** The first slot that matches. */
  function FirstMatch(slots: seq<Slot>, wanted: string): (at: Option<nat>)
    ensures at.Some? ==> at.value < |slots|
  {
    if slots == [] then None
    else if Matches(slots[0], wanted) then Some(0)
    else
      var rest := FirstMatch(slots[1..], wanted);
      if rest.Some? then Some(rest.value + 1) else None
  }

  /** Cutting and comparing is the prefix test. */
  lemma TruncatedIsPrefix(s: string, wanted: string)
    ensures Truncated(s, |wanted|) == wanted <==> wanted <= s
  {
    if wanted <= s {
      assert s[..|wanted|] == wanted;
    }
  }

  /** A slot matches exactly when its token can be read and its label, less trailing blanks, is not empty and starts with the
      wanted one. */
  lemma MatchesExactly(slot: Slot, wanted: string)
    ensures Matches(slot, wanted) <==>
              slot.shown.Some? && Trimmed(slot.shown.value) != "" && wanted <= Trimmed(slot.shown.value)
  {
    if slot.shown.Some? {
      TruncatedIsPrefix(Trimmed(slot.shown.value), wanted);
    }
  }

  lemma {:induction false} FirstMatchIsFirst(slots: seq<Slot>, wanted: string)
    ensures match FirstMatch(slots, wanted)
            case Some(n) => Matches(slots[n], wanted) && forall i :: 0 <= i < n ==> !Matches(slots[i], wanted)
            case None => forall i :: 0 <= i < |slots| ==> !Matches(slots[i], wanted)
  {
    if slots != [] && !Matches(slots[0], wanted) {
      FirstMatchIsFirst(slots[1..], wanted);
    }
  }

  class UriData {
    const tokenLabel: string
    var slotId: int

    constructor (tokenLabel: string, slotId: int)
      ensures this.tokenLabel == tokenLabel && this.slotId == slotId
    {
      this.tokenLabel := tokenLabel;
      this.slotId := slotId;
    }
  }

  /** The return value of the search: the info call on the last slot that was looked at. */
  function ScanRv(slots: seq<Slot>, failure: Rv): (rv: Rv) {
    if slots != [] && slots[|slots| - 1].shown.None? then failure else CkrOk
  }

  /** `apimodule_findtoken`: C_GetSlotList returned `listed` and, if that is CKR_OK, these slots. The slot id becomes the
      first slot whose trimmed label starts with the wanted label, and stays as it was when there is none; the return value then is
      the one of the last slot, so an unreadable last slot makes a fruitless search fail. */
  method FindToken(data: UriData, listed: Rv, slots: seq<Slot>, failure: Rv) returns (rv: Rv, present: bool)
    requires failure.Broken?
    modifies data`slotId
    ensures present <==> listed.CkrOk? && FirstMatch(slots, data.tokenLabel).Some?
    ensures present ==> data.slotId == slots[FirstMatch(slots, data.tokenLabel).value].id && rv == CkrOk
    ensures !present ==> data.slotId == old(data.slotId)
    ensures !present ==> rv == if listed != CkrOk then listed
                               else if slots != [] && slots[|slots| - 1].shown.None? then failure else CkrOk
  {
    rv, present := listed, false;
    if listed != CkrOk || |slots| == 0 {
      return;
    }
    FirstMatchIsFirst(slots, data.tokenLabel);
    var n := 0;
    while n < |slots|
      invariant 0 <= n <= |slots|
      invariant !present && data.slotId == old(data.slotId)
      invariant rv == ScanRv(slots[..n], failure)
      invariant forall i :: 0 <= i < n ==> !Matches(slots[i], data.tokenLabel)
    {
      if slots[n].shown.None? {
        rv := failure;
      } else {
        rv := CkrOk;
        var name := Utf8ToChar(slots[n].shown.value);
        if name.Some? {
          if Truncated(name.value, |data.tokenLabel|) == data.tokenLabel {
            data.slotId := slots[n].id;
            present := true;
          }
        }
      }
      if present {
        break;
      }
      n := n + 1;
    }
    assert slots[..|slots|] == slots;
  }

  /** A token that was created under a name of 1 to 32 characters not ending in a blank is found under that name, unless
      an earlier slot holds a token whose label merely starts with the name. */
  lemma CreatedTokenIsFound(slots: seq<Slot>, at: nat, name: string)
    requires at < |slots| && 1 <= |name| <= LABEL_SIZE && name[|name| - 1] != ' '
    requires slots[at].shown == Some(Padded(name))
    ensures FirstMatch(slots, name).Some? && FirstMatch(slots, name).value <= at
    ensures FirstMatch(slots, name) == Some(at) <==>
              forall i :: 0 <= i < at && slots[i].shown.Some? ==> !(name <= Trimmed(slots[i].shown.value))
  {
    LabelRoundTrip(name);
    TruncatedIsPrefix(name, name);
    assert Matches(slots[at], name);
    FirstMatchIsFirst(slots, name);
    forall i | 0 <= i < |slots| && slots[i].shown.Some?
      ensures Matches(slots[i], name) <==> name <= Trimmed(slots[i].shown.value)
    {
      TruncatedIsPrefix(Trimmed(slots[i].shown.value), name);
    }
  }

  // ----- The sample client's comparison -----

  /** `strncmp(a, b, n) == 0` on zero-terminated strings given by the characters in front of the terminator. */
  predicate StrNCmpEqual(a: string, b: string, n: nat)
    decreases n
  {
    n == 0
    || (a == "" && b == "")
    || (a != "" && b != "" && a[0] == b[0] && StrNCmpEqual(a[1..], b[1..], n - 1))
  }

  /** The characters that a C string function sees: everything up to the first NUL. */
  function CString(s: string): (t: string) {
    if s == "" || s[0] == '\0' then "" else [s[0]] + CString(s[1..])
  }

  lemma {:induction false} CStringOfFree(s: string)
    requires Free(s, '\0')
    ensures CString(s) == s
  {
    if s != "" {
      CStringOfFree(s[1..]);
    }
  }

  lemma {:induction false} StrNCmpIsPrefix(a: string, b: string)
    ensures StrNCmpEqual(a, b, |b|) <==> b <= a
  {
    if a != "" && b != "" {
      StrNCmpIsPrefix(a[1..], b[1..]);
      if b[1..] <= a[1..] && a[0] == b[0] {
        assert b == [b[0]] + b[1..] && a == [a[0]] + a[1..];
      }
    }
  }

  /** The library's cut-and-compare and the client's strncmp agree on labels without NUL. */
  lemma SearchesAgree(stored: string, wanted: string)
    requires Free(stored, '\0') && Free(wanted, '\0')
    ensures (Truncated(Trimmed(stored), |wanted|) == wanted) ==
            StrNCmpEqual(CString(Trimmed(stored)), CString(wanted), |CString(wanted)|)
  {
    TrimmedIsPrefix(stored);
    assert Free(Trimmed(stored), '\0');
    CStringOfFree(Trimmed(stored));
    CStringOfFree(wanted);
    StrNCmpIsPrefix(Trimmed(stored), wanted);
    TruncatedIsPrefix(Trimmed(stored), wanted);
  }

  /** With a NUL inside the wanted label they differ: the client stops comparing there, the library does not. */
  lemma SearchesDifferOnNul()
    ensures !(Truncated(Trimmed("KX"), |"K\0"|) == "K\0")
    ensures StrNCmpEqual(CString(Trimmed("KX")), CString("K\0"), |CString("K\0")|)
  {
    assert "K\0"[1..] == "\0";
    assert CString("\0") == "";
    assert CString("K\0") == "K";
    CStringOfFree("KX");
    StrNCmpIsPrefix("KX", "K");
  }
}
