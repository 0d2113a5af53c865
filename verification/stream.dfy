/**
  Little-endian byte streams, as the firmware's STREAM_TO_UINTn and
  UINTn_TO_STREAM macros handle them: a value is read from, or written to,
  the bytes at a cursor, low byte first, and the cursor moves past them.
 */
module Stream {

  type uint8 = x: int | 0 <= x < 0x100
  type uint16 = x: int | 0 <= x < 0x1_0000
  type uint32 = x: int | 0 <= x < 0x1_0000_0000

  /** The two bytes that stand for `v`, low byte first. */
  function LE16(v: uint16): seq<uint8>
  {
    [v % 0x100, v / 0x100]
  }

  /** The four bytes that stand for `v`, least significant byte first. */
  function LE32(v: uint32): seq<uint8>
  {
    [v % 0x100, (v / 0x100) % 0x100, (v / 0x1_0000) % 0x100, v / 0x100_0000]
  }

  /** Two values with the same byte image are the same value. */
  lemma LE16Injective(a: uint16, b: uint16)
    requires LE16(a) == LE16(b)
    ensures a == b
  {
    assert a == LE16(a)[0] as int + 0x100 * LE16(a)[1] as int;
    assert b == LE16(b)[0] as int + 0x100 * LE16(b)[1] as int;
  }

  lemma LE32Injective(a: uint32, b: uint32)
    requires LE32(a) == LE32(b)
    ensures a == b
  {
    LE32Value(a);
    LE32Value(b);
  }

  lemma LE32Value(v: uint32)
    ensures v == LE32(v)[0] as int + 0x100 * LE32(v)[1] as int + 0x1_0000 * LE32(v)[2] as int + 0x100_0000 * LE32(v)[3] as int
  {
    var b := LE32(v);
    assert v == v % 0x100 + 0x100 * (v / 0x100);
    assert v / 0x100 == b[1] as int + 0x100 * (v / 0x1_0000);
    assert v / 0x1_0000 == b[2] as int + 0x100 * (v / 0x100_0000);
  }

  /**
    STREAM_TO_UINT16: the value of the first two bytes, and the stream
    after them. The bytes read are exactly the image of the value read.
   */
  function StreamToU16(p: seq<uint8>): (r: (uint16, seq<uint8>))
    requires |p| >= 2
    ensures LE16(r.0) == p[..2]
    ensures r.1 == p[2..]
  {
    (p[0] as int + 0x100 * p[1] as int, p[2..])
  }

  /** STREAM_TO_UINT32: the value of the first four bytes, and the stream after them. */
  function StreamToU32(p: seq<uint8>): (r: (uint32, seq<uint8>))
    requires |p| >= 4
    ensures LE32(r.0) == p[..4]
    ensures r.1 == p[4..]
  {
    var v := p[0] as int + 0x100 * p[1] as int + 0x1_0000 * p[2] as int + 0x100_0000 * p[3] as int;
    assert v / 0x100 == p[1] as int + 0x100 * p[2] as int + 0x1_0000 * p[3] as int;
    assert v / 0x1_0000 == p[2] as int + 0x100 * p[3] as int;
    (v, p[4..])
  }

  /** Reading back what was written yields the value written and the bytes after it. */
  lemma {:induction false} ReadWrite16(v: uint16, rest: seq<uint8>)
    ensures StreamToU16(LE16(v) + rest) == (v, rest)
  {
    var r := StreamToU16(LE16(v) + rest);
    assert (LE16(v) + rest)[..2] == LE16(v);
    LE16Injective(r.0, v);
    assert (LE16(v) + rest)[2..] == rest;
  }

  lemma {:induction false} ReadWrite32(v: uint32, rest: seq<uint8>)
    ensures StreamToU32(LE32(v) + rest) == (v, rest)
  {
    var r := StreamToU32(LE32(v) + rest);
    assert (LE32(v) + rest)[..4] == LE32(v);
    LE32Injective(r.0, v);
    assert (LE32(v) + rest)[4..] == rest;
  }

  /** UINT8_TO_STREAM: store one byte at the cursor and move the cursor past it. */
  method PutU8(buf: array<uint8>, p: nat, v: uint8) returns (next: nat)
    requires p + 1 <= buf.Length
    modifies buf
    ensures next == p + 1
    ensures buf[..] == old(buf[..p]) + [v] + old(buf[p + 1..])
  {
    buf[p] := v;
    next := p + 1;
  }

  /** UINT16_TO_STREAM: store the two bytes of `v` at the cursor, low byte first. */
  method PutU16(buf: array<uint8>, p: nat, v: uint16) returns (next: nat)
    requires p + 2 <= buf.Length
    modifies buf
    ensures next == p + 2
    ensures buf[..] == old(buf[..p]) + LE16(v) + old(buf[p + 2..])
  {
    buf[p] := v % 0x100;
    buf[p + 1] := v / 0x100;
    next := p + 2;
  }

  /** UINT32_TO_STREAM: store the four bytes of `v` at the cursor, least significant first. */
  method PutU32(buf: array<uint8>, p: nat, v: uint32) returns (next: nat)
    requires p + 4 <= buf.Length
    modifies buf
    ensures next == p + 4
    ensures buf[..] == old(buf[..p]) + LE32(v) + old(buf[p + 4..])
  {
    buf[p] := v % 0x100;
    buf[p + 1] := (v / 0x100) % 0x100;
    buf[p + 2] := (v / 0x1_0000) % 0x100;
    buf[p + 3] := v / 0x100_0000;
    next := p + 4;
  }
}
