/** The opaque page cursor: a version byte, an ID and a microsecond time, in unpadded URL Base64. */
module Cursor {
  import opened Prelude
  import opened Base64
  import opened ByteOrder

  const TWO63: int := 0x8000_0000_0000_0000
  const TWO64: int := 0x1_0000_0000_0000_0000
  const SIZE: nat := 17

  /** 1 January 2000 and 1 January 3000, in microseconds since 1970. */
  const EARLIEST: int := 946_684_800_000_000
  const LATEST: int := 32_503_680_000_000_000

  datatype Position = Position(afterID: int, snapshot: int)

  /** A 64-bit integer as its unsigned bit pattern, and back. */
  function Pattern(x: int): int { if x < 0 then x + TWO64 else x }

  function Signed(p: int): int { if p >= TWO63 then p - TWO64 else p }

  function Payload(p: Position): seq<byte>
    requires -TWO63 <= p.afterID < TWO63 && -TWO63 <= p.snapshot < TWO63
  {
    [1] + BigEndian(Pattern(p.afterID), 8) + BigEndian(Pattern(p.snapshot), 8)
  }

  function Encode(p: Position): string
    requires -TWO63 <= p.afterID < TWO63 && -TWO63 <= p.snapshot < TWO63
  {
    EncodeRaw(Payload(p), true)
  }

  function Decode(raw: string): Option<Position> {
    if |raw| != 23 then None
    else
      match DecodeRaw(raw, true, false)
      case None => None
      case Some(data) =>
        if |data| != SIZE || data[0] != 1 then None
        else
          var id := Unsigned(data[1..9]);
          var snapshot := Signed(Unsigned(data[9..17]));
          if id > TWO63 - 1 || snapshot < EARLIEST || snapshot >= LATEST then None else Some(Position(id, snapshot))
  }

  predicate InRange(p: Position) { 0 <= p.afterID < TWO63 && EARLIEST <= p.snapshot < LATEST }

  /** Decoding undoes encoding for every ID from 0 to 2^63 - 1 and every time in range; anything out of range is refused. */
  lemma RoundTrip(p: Position)
    requires -TWO63 <= p.afterID < TWO63 && -TWO63 <= p.snapshot < TWO63
    ensures InRange(p) ==> Decode(Encode(p)) == Some(p)
    ensures !InRange(p) ==> Decode(Encode(p)) == None
    ensures |Encode(p)| == 23
  {
    DecodeEncoded(Payload(p), true, false);
    RawLength(Payload(p), true);
    var data := Payload(p);
    assert data[1..9] == BigEndian(Pattern(p.afterID), 8) && data[9..17] == BigEndian(Pattern(p.snapshot), 8);
    UnsignedOfBytes(Pattern(p.afterID), 8);
    UnsignedOfBytes(Pattern(p.snapshot), 8);
  }

  /** A cursor is accepted only if its bytes are those of a position in range. */
  lemma AcceptsOnlyPayloads(raw: string)
    requires Decode(raw).Some?
    ensures InRange(Decode(raw).value)
    ensures DecodeRaw(raw, true, false) == Some(Payload(Decode(raw).value))
  {
    var data := DecodeRaw(raw, true, false).value;
    BytesOfUnsigned(data[1..9]);
    BytesOfUnsigned(data[9..17]);
    assert data == [data[0]] + data[1..9] + data[9..17];
  }
}
