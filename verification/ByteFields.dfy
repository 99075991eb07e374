/** Bytes and the big-endian fields of a wire format. */
module ByteFields {
  import opened Addresses

  type Byte = x: int | 0 <= x < 0x100
  type U16 = x: int | 0 <= x < 0x1_0000
  type Bytes = seq<Byte>

  function PutU16(v: U16): (b: Bytes)
    ensures |b| == 2
  {
    [v / 0x100, v % 0x100]
  }

  function GetU16(b: Bytes): U16
    requires |b| >= 2
  {
    (b[0] as int) * 0x100 + b[1]
  }

  function PutU32(v: U32): (b: Bytes)
    ensures |b| == 4
  {
    [v / 0x100_0000, v / 0x1_0000 % 0x100, v / 0x100 % 0x100, v % 0x100]
  }

  function GetU32(b: Bytes): U32
    requires |b| >= 4
  {
    (b[0] as int) * 0x100_0000 + (b[1] as int) * 0x1_0000 + (b[2] as int) * 0x100 + b[3]
  }

  lemma U16RoundTrip(v: U16, rest: Bytes)
    ensures GetU16(PutU16(v) + rest) == v
  {
  }

  lemma U32RoundTrip(v: U32, rest: Bytes)
    ensures GetU32(PutU32(v) + rest) == v
  {
    var q1 := v / 0x100;
    var q2 := q1 / 0x100;
    var q3 := q2 / 0x100;
    assert v / 0x1_0000 == q2 && v / 0x100_0000 == q3;
    var b := PutU32(v) + rest;
    assert b[0] == q3 && b[1] == q2 % 0x100 && b[2] == q1 % 0x100 && b[3] == v % 0x100;
  }

  function Zeros(n: nat): (b: Bytes)
    ensures |b| == n && forall i :: 0 <= i < n ==> b[i] == 0
  {
    seq(n, _ => 0)
  }

  /** `b` in a field of `n` bytes: cut, or filled up with zeros. */
  function Field(b: Bytes, n: nat): (f: Bytes)
    ensures |f| == n
    ensures forall i :: 0 <= i < n ==> f[i] == if i < |b| then b[i] else 0
  {
    if |b| >= n then b[..n] else b + Zeros(n - |b|)
  }
}
