/** The key transfer record: a header of three 32-bit fields, the iv, the wrapped key.
    key-agent/types.h:43-47 and key-agent/stm/stm_init.cpp:240-253. */
module KeyTransfer {
  import opened Strings

  const HEADER_SIZE := 12
  const MAX_IV_LENGTH := 64
  const FIELD_LIMIT := 0x1_0000_0000

  /** The lowest k bytes of a number, least significant first as on the x86 hosts that SGX needs. */
  function Digits(n: nat, k: nat): (b: Bytes)
    ensures |b| == k
  {
    if k == 0 then [] else [LowByte(n)] + Digits(n / 256, k - 1)
  }

  function LowByte(n: nat): (b: byte) {
    var low: int := n % 256;
    low
  }

  function FromDigits(b: Bytes): (n: nat) {
    if b == [] then 0
    else
      var low: int := b[0];
      low + 256 * FromDigits(b[1..])
  }

  function Limit(k: nat): (n: nat) {
    if k == 0 then 1 else 256 * Limit(k - 1)
  }

  lemma {:induction false} DigitsOfValue(b: Bytes)
    ensures Digits(FromDigits(b), |b|) == b
    ensures FromDigits(b) < Limit(|b|)
  {
    if b != [] {
      DigitsOfValue(b[1..]);
      var rest := FromDigits(b[1..]);
      var low: int := b[0];
      assert FromDigits(b) / 256 == rest && FromDigits(b) % 256 == low;
      assert b == [b[0]] + b[1..];
    }
  }

  lemma {:induction false} ValueOfDigits(n: nat, k: nat)
    requires n < Limit(k)
    ensures FromDigits(Digits(n, k)) == n
  {
    if k > 0 {
      ValueOfDigits(n / 256, k - 1);
      assert Digits(n, k)[1..] == Digits(n / 256, k - 1);
      assert n == 256 * (n / 256) + n % 256;
    }
  }

  lemma LimitOfField()
    ensures Limit(4) == FIELD_LIMIT
  {
    assert Limit(1) == 256;
    assert Limit(2) == 65536;
    assert Limit(3) == 16777216;
  }

  /** A 32-bit field in memory. */
  function Field(n: nat): (b: Bytes)
    requires n < FIELD_LIMIT
    ensures |b| == 4
  {
    Digits(n, 4)
  }

  function ReadField(record: Bytes, at: nat): (n: nat)
    requires at + 4 <= |record|
    ensures n < FIELD_LIMIT
  {
    LimitOfField();
    DigitsOfValue(record[at..at + 4]);
    FromDigits(record[at..at + 4])
  }

  lemma FieldOfRead(record: Bytes, at: nat)
    requires at + 4 <= |record|
    ensures Field(ReadField(record, at)) == record[at..at + 4]
  {
    DigitsOfValue(record[at..at + 4]);
  }

  lemma ReadOfField(n: nat, record: Bytes, at: nat)
    requires n < FIELD_LIMIT && at + 4 <= |record|
    requires record[at..at + 4] == Field(n)
    ensures ReadField(record, at) == n
  {
    LimitOfField();
    ValueOfDigits(n, 4);
  }

  /** What the STM hands to the token; an empty iv is passed as no buffer at all. */
  datatype Parts = Parts(iv: Option<Bytes>, wrappedKey: Bytes, tagSize: nat)

  function IvBytes(p: Parts): (iv: Bytes) {
    if p.iv.None? then [] else p.iv.value
  }

  /** The parts that have a record: they fit the field widths, and an iv buffer is never empty. */
  predicate Encodable(p: Parts) {
    && |IvBytes(p)| <= MAX_IV_LENGTH
    && (p.iv.Some? ==> p.iv.value != [])
    && p.tagSize < FIELD_LIMIT
    && |p.wrappedKey| < FIELD_LIMIT
  }

  function Encode(p: Parts): (record: Bytes)
    requires Encodable(p)
  {
    Field(|IvBytes(p)|) + Field(p.tagSize) + Field(|p.wrappedKey|) + IvBytes(p) + p.wrappedKey
  }

  function IvLength(record: Bytes): (n: nat)
    requires HEADER_SIZE <= |record|
  {
    ReadField(record, 0)
  }

  function WrapSize(record: Bytes): (n: nat)
    requires HEADER_SIZE <= |record|
  {
    ReadField(record, 8)
  }

  /** The code reads these bytes without asking how long the record is, so its callers owe it a record this long. */
  predicate Covered(record: Bytes) {
    && HEADER_SIZE <= |record|
    && (IvLength(record) <= MAX_IV_LENGTH ==> HEADER_SIZE + IvLength(record) + WrapSize(record) <= |record|)
  }

  /** The record slicing of `__keyagent_stm_load_key`; None is the "invalid iv length" error. */
  function Parse(record: Bytes): (p: Option<Parts>)
    requires Covered(record)
  {
    var ivLength := ReadField(record, 0);
    if ivLength > MAX_IV_LENGTH then None
    else
      var iv := if ivLength != 0 then Some(record[HEADER_SIZE..HEADER_SIZE + ivLength]) else None;
      var wrappedKey := record[HEADER_SIZE + ivLength..HEADER_SIZE + ivLength + ReadField(record, 8)];
      Some(Parts(iv, wrappedKey, ReadField(record, 4)))
  }

  /** A field is little-endian. */
  lemma FieldBytes(record: Bytes, at: nat)
    requires at + 4 <= |record|
    ensures ReadField(record, at) ==
              record[at] as int + 256 * record[at + 1] as int + 65536 * record[at + 2] as int + 16777216 * record[at + 3] as int
  {
    var four := record[at..at + 4];
    FourDigits(four[0], four[1], four[2], four[3]);
    assert four == [four[0], four[1], four[2], four[3]];
  }

  lemma FourDigits(a: byte, b: byte, c: byte, d: byte)
    ensures FromDigits([a, b, c, d]) == a as int + 256 * b as int + 65536 * c as int + 16777216 * d as int
  {
    assert [a, b, c, d][1..] == [b, c, d] && [b, c, d][1..] == [c, d] && [c, d][1..] == [d] && [d][1..] == [];
    assert FromDigits([d]) == d as int;
    assert FromDigits([c, d]) == c as int + 256 * d as int;
    assert FromDigits([b, c, d]) == b as int + 256 * c as int + 65536 * d as int;
  }

  /** The record in bytes: iv length, tag size and key size in the first twelve, then the iv, then the wrapped key. An iv of
      more than 64 bytes is refused; an empty one is passed on as none. */
  lemma RecordLayout(record: Bytes)
    ensures Covered(record) <==>
              |record| >= 12 && (ReadField(record, 0) <= 64 ==> |record| >= 12 + ReadField(record, 0) + ReadField(record, 8))
    ensures Covered(record) ==>
              var iv, tag, size := ReadField(record, 0), ReadField(record, 4), ReadField(record, 8);
              Parse(record) == if iv > 64 then None
                               else Some(Parts(if iv == 0 then None else Some(record[12..12 + iv]),
                                               record[12 + iv..12 + iv + size], tag))
  {
  }

  lemma HeaderFields(a: nat, b: nat, c: nat, rest: Bytes)
    requires a < FIELD_LIMIT && b < FIELD_LIMIT && c < FIELD_LIMIT
    ensures var r := Field(a) + Field(b) + Field(c) + rest;
            ReadField(r, 0) == a && ReadField(r, 4) == b && ReadField(r, 8) == c
  {
    var fa, fb, fc := Field(a), Field(b), Field(c);
    ThreeSlices(fa, fb, fc, rest);
    var r := fa + fb + fc + rest;
    ReadOfField(a, r, 0);
    ReadOfField(b, r, 4);
    ReadOfField(c, r, 8);
  }

  lemma ThreeSlices(a: Bytes, b: Bytes, c: Bytes, rest: Bytes)
    requires |a| == |b| == |c| == 4
    ensures var r := a + b + c + rest;
            r[0..4] == a && r[4..8] == b && r[8..12] == c && r[12..] == rest
  {
  }

  lemma EncodedFields(p: Parts)
    requires Encodable(p)
    ensures var r := Encode(p);
            && |r| == HEADER_SIZE + |IvBytes(p)| + |p.wrappedKey|
            && ReadField(r, 0) == |IvBytes(p)| && ReadField(r, 4) == p.tagSize && ReadField(r, 8) == |p.wrappedKey|
            && r[HEADER_SIZE..] == IvBytes(p) + p.wrappedKey
  {
    var iv, key := IvBytes(p), p.wrappedKey;
    HeaderFields(|iv|, p.tagSize, |key|, iv + key);
    var header := Field(|iv|) + Field(p.tagSize) + Field(|key|);
    assert Encode(p) == header + (iv + key);
  }

  /** Parsing what was encoded gives exactly the parts back. */
  lemma ParseOfEncode(p: Parts)
    requires Encodable(p)
    ensures Covered(Encode(p)) && Parse(Encode(p)) == Some(p)
  {
    EncodedFields(p);
    var r := Encode(p);
    var n := |IvBytes(p)|;
    assert r[HEADER_SIZE..HEADER_SIZE + n] == r[HEADER_SIZE..][..n] == IvBytes(p);
    assert r[HEADER_SIZE + n..HEADER_SIZE + n + |p.wrappedKey|] == r[HEADER_SIZE..][n..] == p.wrappedKey;
  }

  /** Parsing fails exactly on an iv length over 64. What it yields can be encoded, and the encoding is the record up
      to the last byte that the header accounts for: the slices are adjacent and leave no gap. The whole record comes
      back exactly when it carries nothing behind the wrapped key. */
  lemma EncodeOfParse(record: Bytes)
    requires Covered(record)
    ensures Parse(record).None? <==> IvLength(record) > MAX_IV_LENGTH
    ensures Parse(record).Some? ==>
              && Encodable(Parse(record).value)
              && Encode(Parse(record).value) == record[..HEADER_SIZE + IvLength(record) + WrapSize(record)]
              && (Encode(Parse(record).value) == record <==> |record| == HEADER_SIZE + IvLength(record) + WrapSize(record))
  {
    hide Field, ReadField, Digits, FromDigits;
    if Parse(record).Some? {
      var n, w := ReadField(record, 0), ReadField(record, 8);
      var p := Parse(record).value;
      FieldOfRead(record, 0);
      FieldOfRead(record, 4);
      FieldOfRead(record, 8);
      assert IvBytes(p) == record[12..12 + n];
      assert record[..12 + n + w] == record[0..4] + record[4..8] + record[8..12] + record[12..12 + n] + record[12 + n..12 + n + w];
    }
  }
}
