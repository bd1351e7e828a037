/** The binary data frame of src/common/protocol.cpp: a four-byte session id, then the payload. */
module DataFrame {
  import opened Common

  const HEADER := 4
  const ID_LIMIT := WORD32

  function EncodeData(id: Word, payload: Bytes): Bytes {
    ToBigEndian(id, HEADER) + payload
  }

  function DecodeData(frame: Bytes): Option<(nat, Bytes)> {
    if |frame| < HEADER then None else Some((BigEndian(frame[..HEADER]), frame[HEADER..]))
  }

  lemma Pow256Of4()
    ensures Pow256(4) == ID_LIMIT
  {
    assert Pow256(2) == 0x1_0000;
  }

  /** Whatever the session and the payload, decoding gives both back. */
  lemma DataRoundTrip(id: Word, payload: Bytes)
    ensures DecodeData(EncodeData(id, payload)) == Some((id as nat, payload))
  {
    Pow256Of4();
    BigEndianRoundTrip(id, HEADER);
    assert EncodeData(id, payload)[..HEADER] == ToBigEndian(id, HEADER);
  }

  /** Every frame of at least four bytes is the encoding of what it decodes to, and shorter ones are refused. */
  lemma DecodedIsEncoded(frame: Bytes)
    ensures DecodeData(frame).None? <==> |frame| < HEADER
    ensures DecodeData(frame).Some? ==>
              DecodeData(frame).value.0 < ID_LIMIT && EncodeData(DecodeData(frame).value.0, DecodeData(frame).value.1) == frame
  {
    if |frame| >= HEADER {
      Pow256Of4();
      ToBigEndianRoundTrip(frame[..HEADER]);
      assert frame[..HEADER] + frame[HEADER..] == frame;
    }
  }

  /** `putU32BE` */
  method PutU32BE(p: array<Byte>, v: Word)
    requires p.Length >= 4
    modifies p
    ensures p[..4] == ToBigEndian(v, 4) && p[4..] == old(p[4..])
  {
    p[0] := ByteOf(v / 0x100_0000);
    p[1] := ByteOf(v / 0x1_0000);
    p[2] := ByteOf(v / 0x100);
    p[3] := ByteOf(v);
    assert Pow256(3) == 0x100_0000 && Pow256(2) == 0x1_0000 && Pow256(1) == 0x100;
    forall k | 0 <= k < 4 ensures p[k] == ToBigEndian(v, 4)[k] { ToBigEndianAt(v, 4, k); }
  }

  /** `getU32BE` */
  method GetU32BE(p: Bytes) returns (v: Word)
    requires |p| >= 4
    ensures v == BigEndian(p[..4])
  {
    var b0, b1, b2, b3 := p[0] as int, p[1] as int, p[2] as int, p[3] as int;
    v := 0x100_0000 * b0 + 0x1_0000 * b1 + 0x100 * b2 + b3;
    assert p[..4][..3] == p[..3] && p[..3][..2] == p[..2] && p[..2][..1] == p[..1];
    assert BigEndian(p[..1]) == p[0];
    assert BigEndian(p[..2]) == 256 * b0 + b1;
  }

  /** `encodeDataFrame` */
  method Encode(id: Word, payload: Bytes) returns (frame: Bytes)
    ensures frame == EncodeData(id, payload)
  {
    var out := new Byte[HEADER + |payload|];
    PutU32BE(out, id);
    forall k | 0 <= k < |payload| { out[HEADER + k] := payload[k]; }
    frame := out[..];
    assert frame[..4] == out[..4] && frame[4..] == payload;
  }

  /** `decodeDataFrame` */
  method Decode(frame: Bytes) returns (r: Option<(nat, Bytes)>)
    ensures r == DecodeData(frame)
  {
    if |frame| < HEADER { return None; }
    var id := GetU32BE(frame);
    r := Some((id as nat, frame[HEADER..]));
  }
}
