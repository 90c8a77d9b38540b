/** Request ids are version 4 UUIDs in text form: key-agent/src/request.cpp (RFC 4122, sections 3, 4.1.1, 4.1.3, 4.4). */
module RequestIds {

  type Uuid = s: seq<bv8> | |s| == 16 witness seq(16, _ => 0)

  /** The value of the 16 bytes after the version and the variant were forced in. */
  function WithVersion(bytes: Uuid, version: bv32): (r: Uuid) {
    bytes[6 := (bytes[6] & 0x0f) | VersionBits(version)][8 := (bytes[8] & 0x3f) | 0x80]
  }

  /** `version << 4`, cut down to the byte it is stored in. */
  function VersionBits(version: bv32): (b: bv8) {
    ((version << 4) & 0xff) as bv8
  }

  /** `uuid_set_version`: four updates in place, in the order of the source. */
  method SetVersion(bytes: array<bv8>, version: bv32)
    requires bytes.Length == 16
    modifies bytes
    ensures bytes[..] == WithVersion(old(bytes[..]), version)
  {
    bytes[6] := bytes[6] & 0x0f;
    bytes[6] := bytes[6] | VersionBits(version);
    bytes[8] := bytes[8] & 0x3f;
    bytes[8] := bytes[8] | 0x80;
    assert bytes[..] == WithVersion(old(bytes[..]), version);
  }

  /** The bits that a version 4 id leaves free: all but the top four of byte 6 and the top two of byte 8. */
  predicate SameFreeBits(a: Uuid, b: Uuid) {
    && (forall i :: 0 <= i < 16 && i != 6 && i != 8 ==> a[i] == b[i])
    && a[6] & 0x0f == b[6] & 0x0f
    && a[8] & 0x3f == b[8] & 0x3f
  }

  predicate IsVersion(bytes: Uuid, version: bv8) {
    bytes[6] >> 4 == version && bytes[8] >> 6 == 2
  }

  lemma VersionFitsNibble(version: bv32)
    requires version < 16
    ensures VersionBits(version) == (version as bv8) << 4 && version as bv8 < 16
  {
  }

  lemma MaskFacts(x: bv8, y: bv8, nibble: bv8)
    requires nibble < 16
    ensures ((x & 0x0f) | (nibble << 4)) & 0x0f == x & 0x0f
    ensures ((x & 0x0f) | (nibble << 4)) >> 4 == nibble
    ensures x >> 4 == nibble && y >> 4 == nibble && x & 0x0f == y & 0x0f ==> x == y
  {
  }

  lemma VariantFacts(x: bv8, y: bv8)
    ensures ((x & 0x3f) | 0x80) & 0x3f == x & 0x3f
    ensures ((x & 0x3f) | 0x80) >> 6 == 2
    ensures x >> 6 == 2 && y >> 6 == 2 && x & 0x3f == y & 0x3f ==> x == y
  {
  }

  /** The version and the 122 free bits determine an id. */
  lemma VersionAndFreeBitsDetermine(a: Uuid, b: Uuid, version: bv8)
    requires version < 16
    requires IsVersion(a, version) && IsVersion(b, version) && SameFreeBits(a, b)
    ensures a == b
  {
    MaskFacts(a[6], b[6], version);
    VariantFacts(a[8], b[8]);
    assert forall i :: 0 <= i < 16 ==> a[i] == b[i];
  }

  lemma VersionIsForced(bytes: Uuid, version: bv32)
    requires version < 16
    ensures IsVersion(WithVersion(bytes, version), version as bv8)
    ensures SameFreeBits(WithVersion(bytes, version), bytes)
  {
    VersionFitsNibble(version);
    MaskFacts(bytes[6], bytes[6], version as bv8);
    VariantFacts(bytes[8], bytes[8]);
  }

  /** Setting the version fixes exactly six bits: the required ones hold, the other 122 stay,
      and those two facts determine the result. */
  lemma SixBitsFixed(bytes: Uuid, version: bv32, other: Uuid)
    requires version < 16
    ensures other == WithVersion(bytes, version) <==> IsVersion(other, version as bv8) && SameFreeBits(other, bytes)
  {
    VersionIsForced(bytes, version);
    VersionFitsNibble(version);
    if IsVersion(other, version as bv8) && SameFreeBits(other, bytes) {
      VersionAndFreeBitsDetermine(other, WithVersion(bytes, version), version as bv8);
    }
  }

  lemma VersionIsIdempotent(bytes: Uuid, version: bv32)
    requires version < 16
    ensures WithVersion(WithVersion(bytes, version), version) == WithVersion(bytes, version)
  {
    var r := WithVersion(bytes, version);
    VersionIsForced(bytes, version);
    SixBitsFixed(r, version, r);
  }

  function HexDigit(n: bv8): (c: char)
    requires n < 16
  {
    if n == 0 then '0' else if n == 1 then '1' else if n == 2 then '2' else if n == 3 then '3'
    else if n == 4 then '4' else if n == 5 then '5' else if n == 6 then '6' else if n == 7 then '7'
    else if n == 8 then '8' else if n == 9 then '9' else if n == 10 then 'a' else if n == 11 then 'b'
    else if n == 12 then 'c' else if n == 13 then 'd' else if n == 14 then 'e' else 'f'
  }

  function HexValue(c: char): (n: bv8) {
    if c == '1' then 1 else if c == '2' then 2 else if c == '3' then 3 else if c == '4' then 4
    else if c == '5' then 5 else if c == '6' then 6 else if c == '7' then 7 else if c == '8' then 8
    else if c == '9' then 9 else if c == 'a' then 10 else if c == 'b' then 11 else if c == 'c' then 12
    else if c == 'd' then 13 else if c == 'e' then 14 else if c == 'f' then 15 else 0
  }

  lemma NibbleBound(b: bv8)
    ensures b >> 4 < 16 && b & 0x0f < 16
    ensures ((b >> 4) << 4) | (b & 0x0f) == b
  {
  }

  /** `%02x` */
  function Hex(b: bv8): (s: string)
    ensures |s| == 2
  {
    NibbleBound(b);
    [HexDigit(b >> 4), HexDigit(b & 0x0f)]
  }

  function Octet(text: string, at: nat): (b: bv8)
    requires at + 2 <= |text|
  {
    (HexValue(text[at]) << 4) | HexValue(text[at + 1])
  }

  lemma DigitRoundTrip(n: bv8)
    requires n < 16
    ensures HexValue(HexDigit(n)) == n
    ensures HexDigit(n) != '-'
  {
  }

  lemma OctetOfHex(b: bv8, text: string, at: nat)
    requires at + 2 <= |text|
    requires text[at..at + 2] == Hex(b)
    ensures Octet(text, at) == b
    ensures text[at] != '-' && text[at + 1] != '-'
  {
    NibbleBound(b);
    DigitRoundTrip(b >> 4);
    DigitRoundTrip(b & 0x0f);
    assert text[at] == text[at..at + 2][0] && text[at + 1] == text[at..at + 2][1];
  }

  /** Bytes `from` to `to`, two digits each. */
  function HexRun(bytes: Uuid, from: nat, to: nat): (s: string)
    requires from <= to <= 16
    ensures |s| == 2 * (to - from)
    decreases 16 - from
  {
    if from == to then "" else Hex(bytes[from]) + HexRun(bytes, from + 1, to)
  }

  /** `uuid_to_string`: groups of 4, 2, 2, 2 and 6 bytes with hyphens between them. */
  function ToText(bytes: Uuid): (text: string)
    ensures |text| == 36
  {
    HexRun(bytes, 0, 4) + "-" + HexRun(bytes, 4, 6) + "-" + HexRun(bytes, 6, 8) + "-"
    + HexRun(bytes, 8, 10) + "-" + HexRun(bytes, 10, 16)
  }

  /** Where byte i starts in the text. */
  function Position(i: nat): (at: nat)
    requires i < 16
    ensures at + 2 <= 36
  {
    2 * i + (if i < 4 then 0 else if i < 6 then 1 else if i < 8 then 2 else if i < 10 then 3 else 4)
  }

  function FromText(text: string): (bytes: Uuid)
    requires |text| == 36
  {
    seq(16, i requires 0 <= i < 16 => Octet(text, Position(i)))
  }

  lemma {:induction false} RunAt(bytes: Uuid, from: nat, to: nat, i: nat)
    requires from <= i < to <= 16
    ensures HexRun(bytes, from, to)[2 * (i - from)..2 * (i - from) + 2] == Hex(bytes[i])
    decreases 16 - from
  {
    var rest := HexRun(bytes, from + 1, to);
    if i > from {
      RunAt(bytes, from + 1, to, i);
      var j := 2 * (i - from - 1);
      assert (Hex(bytes[from]) + rest)[j + 2..j + 4] == rest[j..j + 2];
    }
  }

  lemma InGroup(bytes: Uuid, text: string, start: nat, from: nat, to: nat, i: nat)
    requires from <= i < to <= 16
    requires start + 2 * (to - from) <= |text|
    requires text[start..start + 2 * (to - from)] == HexRun(bytes, from, to)
    ensures text[start + 2 * (i - from)..start + 2 * (i - from) + 2] == Hex(bytes[i])
  {
    RunAt(bytes, from, to, i);
    var run := HexRun(bytes, from, to);
    var d := 2 * (i - from);
    assert run[d] == text[start + d] && run[d + 1] == text[start + d + 1];
    assert run[d..d + 2] == [run[d], run[d + 1]];
    assert text[start + d..start + d + 2] == [text[start + d], text[start + d + 1]];
  }

  lemma TextGroups(bytes: Uuid)
    ensures var t := ToText(bytes);
            && t[0..8] == HexRun(bytes, 0, 4) && t[9..13] == HexRun(bytes, 4, 6)
            && t[14..18] == HexRun(bytes, 6, 8) && t[19..23] == HexRun(bytes, 8, 10)
            && t[24..36] == HexRun(bytes, 10, 16)
            && t[8] == t[13] == t[18] == t[23] == '-'
  {
    var a, b, c, d, e :=
      HexRun(bytes, 0, 4), HexRun(bytes, 4, 6), HexRun(bytes, 6, 8), HexRun(bytes, 8, 10), HexRun(bytes, 10, 16);
    FiveGroups(a, b, c, d, e);
  }

  lemma FiveGroups(a: string, b: string, c: string, d: string, e: string)
    requires |a| == 8 && |b| == |c| == |d| == 4 && |e| == 12
    ensures var t := a + "-" + b + "-" + c + "-" + d + "-" + e;
            && t[0..8] == a && t[9..13] == b && t[14..18] == c && t[19..23] == d && t[24..36] == e
            && t[8] == t[13] == t[18] == t[23] == '-'
  {
    var p1 := a + "-" + b;
    var p2 := p1 + "-" + c;
    var p3 := p2 + "-" + d;
    assert p1[0..8] == a && p1[9..13] == b && p1[8] == '-';
    assert p2[..13] == p1 && p2[13] == '-' && p2[14..18] == c;
    assert p3[..18] == p2 && p3[18] == '-' && p3[19..23] == d;
    var t := p3 + "-" + e;
    assert t[..23] == p3 && t[23] == '-' && t[24..36] == e;
    Prefix(p1, p2, t);
    Prefix(p2, p3, t);
    Prefix(p1, p3, t);
  }

  /** What a prefix shows, the whole shows. */
  lemma Prefix(p: string, q: string, t: string)
    requires p <= q && q <= t
    ensures p <= t
    ensures forall i, j :: 0 <= i <= j <= |p| ==> p[i..j] == t[i..j]
    ensures forall i :: 0 <= i < |p| ==> p[i] == t[i]
  {
  }

  lemma GroupAt(bytes: Uuid, i: nat)
    requires i < 16
    ensures ToText(bytes)[Position(i)..Position(i) + 2] == Hex(bytes[i])
  {
    TextGroups(bytes);
    if i < 4 {
      InGroup(bytes, ToText(bytes), 0, 0, 4, i);
    } else if i < 6 {
      InGroup(bytes, ToText(bytes), 9, 4, 6, i);
    } else if i < 8 {
      InGroup(bytes, ToText(bytes), 14, 6, 8, i);
    } else if i < 10 {
      InGroup(bytes, ToText(bytes), 19, 8, 10, i);
    } else {
      InGroup(bytes, ToText(bytes), 24, 10, 16, i);
    }
  }

  /** The text decodes back to the same bytes, and its hyphens stand at the four fixed places and nowhere else. */
  lemma TextRoundTrip(bytes: Uuid)
    ensures FromText(ToText(bytes)) == bytes
    ensures forall k :: 0 <= k < 36 ==> (ToText(bytes)[k] == '-' <==> k in {8, 13, 18, 23})
  {
    var text := ToText(bytes);
    TextGroups(bytes);
    forall i | 0 <= i < 16
      ensures Octet(text, Position(i)) == bytes[i]
      ensures text[Position(i)] != '-' && text[Position(i) + 1] != '-'
    {
      GroupAt(bytes, i);
      OctetOfHex(bytes[i], text, Position(i));
    }
    forall k | 0 <= k < 36
      ensures text[k] == '-' <==> k in {8, 13, 18, 23}
    {
      if k !in {8, 13, 18, 23} {
        var j := if k < 8 then k else if k < 13 then k - 1 else if k < 18 then k - 2 else if k < 23 then k - 3 else k - 4;
        assert k == Position(j / 2) || k == Position(j / 2) + 1;
      }
    }
  }

  /** Distinct ids are distinct request table keys. */
  lemma TextIsInjective(a: Uuid, b: Uuid)
    ensures ToText(a) == ToText(b) <==> a == b
  {
    TextRoundTrip(a);
    TextRoundTrip(b);
  }

  type Word = w: seq<bv8> | |w| == 4 witness seq(4, _ => 0)

  /** The sixteen bytes that four random words fill. */
  function Filled(draws: seq<Word>): (bytes: Uuid)
    requires |draws| == 4
  {
    seq(16, k requires 0 <= k < 16 => draws[k / 4][k % 4])
  }

  /** The loop of `uuid_generate_v4`: the words, each given as its four bytes in host order, fill the id one by one. */
  method FillWords(bytes: array<bv8>, draws: seq<Word>)
    requires bytes.Length == 16 && |draws| == 4
    modifies bytes
    ensures bytes[..] == Filled(draws)
  {
    for i := 0 to 4
      invariant forall k :: 0 <= k < 4 * i ==> bytes[k] == draws[k / 4][k % 4]
    {
      FillWord(bytes, 4 * i, draws[i]);
      forall k | 4 * i <= k < 4 * i + 4
        ensures draws[k / 4][k % 4] == draws[i][k - 4 * i]
      {
        InWord(i, k);
      }
    }
  }

  method FillWord(bytes: array<bv8>, at: nat, word: Word)
    requires at + 4 <= bytes.Length
    modifies bytes
    ensures forall k :: 0 <= k < bytes.Length ==> bytes[k] == if at <= k < at + 4 then word[k - at] else old(bytes[k])
  {
    bytes[at], bytes[at + 1], bytes[at + 2], bytes[at + 3] := word[0], word[1], word[2], word[3];
  }

  lemma InWord(i: nat, k: nat)
    requires 4 * i <= k < 4 * i + 4
    ensures k / 4 == i && k % 4 == k - 4 * i
  {
  }

  /** `uuid_generate_v4` */
  method GenerateV4(bytes: array<bv8>, draws: seq<Word>)
    requires bytes.Length == 16 && |draws| == 4
    modifies bytes
    ensures bytes[..] == WithVersion(Filled(draws), 4)
  {
    hide Filled, WithVersion;
    FillWords(bytes, draws);
    SetVersion(bytes, 4);
  }

  function RequestId(draws: seq<Word>): (id: string)
    requires |draws| == 4
  {
    ToText(WithVersion(Filled(draws), 4))
  }

  /** `keyagent_generate_request_id` */
  method GenerateRequestId(draws: seq<Word>) returns (id: string)
    requires |draws| == 4
    ensures id == RequestId(draws)
  {
    var bytes := new bv8[16];
    GenerateV4(bytes, draws);
    id := ToText(bytes[..]);
  }

  /** Every generated id shows its version digit and one of the four variant digits at the RFC's places,
      whatever the random source returned; two draws give the same id only when their 122 free bits agree. */
  lemma GeneratedIds(a: Uuid, b: Uuid)
    ensures ToText(WithVersion(a, 4))[14] == '4'
    ensures ToText(WithVersion(a, 4))[19] in "89ab"
    ensures ToText(WithVersion(a, 4)) == ToText(WithVersion(b, 4)) <==> SameFreeBits(a, b)
  {
    VersionIsForced(a, 4);
    VersionIsForced(b, 4);
    SixBitsFixed(a, 4, WithVersion(b, 4));
    VersionDigits(WithVersion(a, 4));
    TextIsInjective(WithVersion(a, 4), WithVersion(b, 4));
    FreeBitsTransfer(a, b);
  }

  /** All sixteen random bytes enter the request id, byte k of word i in place 4 i + k, but for the six fixed bits. */
  lemma RequestIdHoldsDraws(draws: seq<Word>, i: nat, k: nat)
    requires |draws| == 4 && i < 4 && k < 4
    ensures var bytes := FromText(RequestId(draws)); var at := 4 * i + k;
            && |RequestId(draws)| == 36 && RequestId(draws)[14] == '4' && RequestId(draws)[19] in "89ab"
            && (at != 6 && at != 8 ==> bytes[at] == draws[i][k])
            && (at == 6 ==> bytes[at] & 0x0f == draws[i][k] & 0x0f && bytes[at] >> 4 == 4)
            && (at == 8 ==> bytes[at] & 0x3f == draws[i][k] & 0x3f && bytes[at] >> 6 == 2)
  {
    hide WithVersion, ToText, FromText;
    var filled := Filled(draws);
    TextRoundTrip(WithVersion(filled, 4));
    VersionIsForced(filled, 4);
    GeneratedIds(filled, filled);
    InWord(i, 4 * i + k);
  }

  lemma FreeBitsTransfer(a: Uuid, b: Uuid)
    requires SameFreeBits(WithVersion(b, 4), b)
    ensures SameFreeBits(WithVersion(b, 4), a) <==> SameFreeBits(a, b)
  {
  }

  lemma VersionDigits(bytes: Uuid)
    requires IsVersion(bytes, 4)
    ensures ToText(bytes)[14] == '4'
    ensures ToText(bytes)[19] in "89ab"
  {
    GroupAt(bytes, 6);
    GroupAt(bytes, 8);
    HexHead(bytes[6], ToText(bytes), 14);
    HexHead(bytes[8], ToText(bytes), 19);
    VariantDigit(bytes[8]);
  }

  lemma HexHead(b: bv8, text: string, at: nat)
    requires at + 2 <= |text| && text[at..at + 2] == Hex(b)
    ensures b >> 4 < 16 && text[at] == HexDigit(b >> 4)
  {
    NibbleBound(b);
    assert text[at] == text[at..at + 2][0];
  }

  lemma VariantDigit(x: bv8)
    requires x >> 6 == 2
    ensures 8 <= x >> 4 < 12
  {
  }
}
