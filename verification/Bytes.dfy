/** Bytes, and 32-bit big-endian numbers (RFC 2083 section 2.1). */
module Bytes {
  type Byte = x: int | 0 <= x < 256 witness 0

  const TWO_32: int := 0x1_0000_0000

  function ToBigEndian(n: int): (b: seq<Byte>)
    requires 0 <= n < TWO_32
    ensures |b| == 4
  {
    [n / 0x100_0000, n / 0x1_0000 % 0x100, n / 0x100 % 0x100, n % 0x100]
  }

  function FromBigEndian(b: seq<Byte>): (n: int)
    requires |b| == 4
    ensures 0 <= n < TWO_32
  {
    b[0] as int * 0x100_0000 + b[1] as int * 0x1_0000 + b[2] as int * 0x100 + b[3] as int
  }

  /** Each number has one four-byte form and each four bytes are the form of one number. */
  lemma BigEndianRoundTrip(n: int, b: seq<Byte>)
    requires 0 <= n < TWO_32 && |b| == 4
    ensures FromBigEndian(ToBigEndian(n)) == n
    ensures ToBigEndian(FromBigEndian(b)) == b
  {
    var m := FromBigEndian(b);
    assert m / 0x100_0000 == b[0] && m % 0x100 == b[3];
    assert m / 0x1_0000 == b[0] as int * 0x100 + b[1] as int;
    assert m / 0x100 == b[0] as int * 0x1_0000 + b[1] as int * 0x100 + b[2] as int;
  }

  /** Addition and subtraction of bytes wrap around. */
  function Plus(a: int, b: int): Byte {
    (a + b) % 256
  }

  function Minus(a: int, b: int): Byte {
    (a - b) % 256
  }

  lemma SmallMod(x: int, k: int)
    requires 0 <= x < 256
    ensures (x + 256 * k) % 256 == x
  {
  }

  lemma PlusMinus(a: Byte, b: int)
    ensures Plus(Minus(a, b), b) == a && Minus(Plus(a, b), b) == a
  {
    var m, p: int := (a - b) % 256, (a + b) % 256;
    SmallMod(a, -((a - b) / 256));
    assert m + b == a + 256 * -((a - b) / 256);
    SmallMod(a, -((a + b) / 256));
    assert p - b == a + 256 * -((a + b) / 256);
  }
}
