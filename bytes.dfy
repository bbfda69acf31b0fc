/** Bytes, C integer arithmetic and the report bit test (testbit macro). */
module Bytes {

  /** An unsigned 8-bit value: uint8_t / unsigned char. */
  newtype byte = x: int | 0 <= x < 256

  /** Storing an int into a uint8_t (or an int into a char that is then stored into an
      unsigned char buffer) keeps it modulo 256. */
  function ToByte(x: int): (b: byte)
    ensures 0 <= x < 256 ==> b as int == x
  {
    (x % 256) as byte
  }

  /** C integer division, which truncates toward zero. */
  function CDiv(a: int, b: int): (q: int)
    requires b > 0
    ensures a >= 0 ==> q == a / b
    ensures a <= 0 ==> q <= 0
  {
    if a >= 0 then a / b else -((-a) / b)
  }

  /** C remainder: takes the sign of the dividend and completes CDiv. */
  function CMod(a: int, b: int): (r: int)
    requires b > 0
    ensures a == CDiv(a, b) * b + r
    ensures a >= 0 ==> 0 <= r < b
    ensures a < 0 ==> -b < r <= 0
  {
    a - CDiv(a, b) * b
  }

  function Pow2(n: nat): (p: nat)
    ensures p >= 1
  {
    if n == 0 then 1 else 2 * Pow2(n - 1)
  }

  /** The mask 0x80 >> k of the testbit macro, for k = 0..7. */
  const BitMask: seq<int> := [0x80, 0x40, 0x20, 0x10, 0x08, 0x04, 0x02, 0x01]

  /** testbit(x, y): bit y of the buffer, counted from the most significant bit of byte 0.
      The macro shifts the masked bit down to position 0, so the result is 0 or 1. */
  function TestBit(buf: seq<byte>, y: nat): bool
    requires y < 8 * |buf|
  {
    (buf[y / 8] as int / BitMask[y % 8]) % 2 == 1
  }

  function BitValue(b: bool): nat { if b then 1 else 0 }

  /** The number whose binary digits, most significant first, are `bits`. */
  function BitsValue(bits: seq<bool>): (v: nat)
    ensures v < Pow2(|bits|)
  {
    if bits == [] then 0 else 2 * BitsValue(bits[..|bits| - 1]) + BitValue(bits[|bits| - 1])
  }

  /** Packs a bit string (most significant bit of each byte first) into bytes. */
  function Pack(bits: seq<bool>): (r: seq<byte>)
    requires |bits| % 8 == 0
    ensures |r| * 8 == |bits|
    decreases |bits|
  {
    if bits == [] then []
    else
      assert Pow2(8) == 256;
      [BitsValue(bits[..8]) as byte] + Pack(bits[8..])
  }

  lemma MulAtLeast(k: int, d: int)
    requires k >= 1 && d > 0
    ensures k * d >= d
  {
    if k > 1 { MulAtLeast(k - 1, d); assert k * d == (k - 1) * d + d; }
  }

  lemma DivUnique(n: int, d: int, q: int, r: int)
    requires d > 0 && n == q * d + r && 0 <= r < d
    ensures n / d == q && n % d == r
  {
    var q', r' := n / d, n % d;
    assert n == q' * d + r' && 0 <= r' < d;
    if q' > q {
      assert (q' - q) * d == q' * d - q * d;
      MulAtLeast(q' - q, d);
    } else if q' < q {
      assert (q - q') * d == q * d - q' * d;
      MulAtLeast(q - q', d);
    }
  }

  lemma HalveQuotient(a: nat, l: nat, m: nat)
    requires l < 2 && m >= 1
    ensures (2 * a + l) / (2 * m) == a / m
  {
    var q, r := a / m, a % m;
    assert a == q * m + r;
    assert 2 * a + l == q * (2 * m) + (2 * r + l);
    DivUnique(2 * a + l, 2 * m, q, 2 * r + l);
  }

  /** Bit k of the value of a bit string is the k-th bit of the string. */
  lemma {:induction false} BitsValueAt(bits: seq<bool>, k: nat)
    requires k < |bits|
    ensures (BitsValue(bits) / Pow2(|bits| - 1 - k)) % 2 == BitValue(bits[k])
  {
    var n := |bits|;
    var front := bits[..n - 1];
    var v := BitsValue(front);
    assert BitsValue(bits) == 2 * v + BitValue(bits[n - 1]);
    if k == n - 1 {
      DivUnique(2 * v + BitValue(bits[n - 1]), 2, v, BitValue(bits[n - 1]));
    } else {
      assert Pow2(n - 1 - k) == 2 * Pow2(n - 2 - k);
      HalveQuotient(v, BitValue(bits[n - 1]), Pow2(n - 2 - k));
      assert front[k] == bits[k];
      BitsValueAt(front, k);
    }
  }

  lemma MaskIsPow2(k: nat)
    requires k < 8
    ensures BitMask[k] == Pow2(7 - k)
  {
    assert Pow2(0) == 1 && Pow2(1) == 2 && Pow2(2) == 4 && Pow2(3) == 8;
    assert Pow2(4) == 16 && Pow2(5) == 32 && Pow2(6) == 64 && Pow2(7) == 128;
  }

  lemma {:induction false} PackAt(bits: seq<bool>, i: nat)
    requires |bits| % 8 == 0 && i < |bits| / 8
    ensures Pack(bits)[i] as int == BitsValue(bits[8 * i .. 8 * i + 8])
  {
    if i > 0 {
      PackAt(bits[8..], i - 1);
      assert bits[8..][8 * (i - 1) .. 8 * (i - 1) + 8] == bits[8 * i .. 8 * i + 8];
    }
  }

  /** testbit reads back, most significant bit first, exactly the bits a report was packed from. */
  lemma TestBitPack(bits: seq<bool>, y: nat)
    requires |bits| % 8 == 0 && y < |bits|
    ensures y < 8 * |Pack(bits)| && TestBit(Pack(bits), y) == bits[y]
  {
    var i, k := y / 8, y % 8;
    PackAt(bits, i);
    var chunk := bits[8 * i .. 8 * i + 8];
    BitsValueAt(chunk, k);
    MaskIsPow2(k);
    assert chunk[k] == bits[y];
  }
}
