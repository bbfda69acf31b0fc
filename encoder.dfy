/** The five-digit display encoding shared by Panel::setLeft and Panel::setRight. */
module Encoder {
  import opened Bytes

  /** The nibble code that leaves a digit position dark. */
  const Blank: byte := 15
  /** The dash segment pattern (0xE0). */
  const Dash: byte := 0xE0
  /** Added to a digit to light its decimal point (the "flag"). */
  const Flag := 208

  /** The place value of each of the five positions. */
  const PlaceValue: seq<int> := [10000, 1000, 100, 10, 1]

  /** The value of five digits, most significant first. */
  function Weighted(d: seq<int>): int
    requires |d| == 5
  {
    d[0] * 10000 + d[1] * 1000 + d[2] * 100 + d[3] * 10 + d[4]
  }

  /** The digits of a non-negative value, most significant first (the ten-thousands digit keeps
      whatever exceeds 9). */
  function Digits(n: nat): (d: seq<int>)
    ensures |d| == 5
  {
    [n / 10000, (n % 10000) / 1000, (n % 1000) / 100, (n % 100) / 10, n % 10]
  }

  /** The division chain of setLeft/setRight. C division truncates toward zero, so a negative
      value yields the negated digits of its magnitude. */
  function FiveDigits(v: int): (d: seq<int>)
    ensures |d| == 5
  {
    if v >= 0 then Digits(v) else Negated(Digits(-v))
  }

  /** Each of five digits negated. */
  function Negated(d: seq<int>): (r: seq<int>)
    requires |d| == 5
    ensures |r| == 5
  {
    [-d[0], -d[1], -d[2], -d[3], -d[4]]
  }

  /** FiveDigits is the chain of C quotients and remainders written in setLeft/setRight. */
  lemma FiveDigitsIsCChain(v: int)
    ensures
      var r1 := CMod(v, 10000);
      var r2 := CMod(r1, 1000);
      var r3 := CMod(r2, 100);
      var r4 := CMod(r3, 10);
      FiveDigits(v) == [CDiv(v, 10000), CDiv(r1, 1000), CDiv(r2, 100), CDiv(r3, 10), r4]
  {
    var r1 := CMod(v, 10000);
    var r2 := CMod(r1, 1000);
    var r3 := CMod(r2, 100);
    var c := [CDiv(v, 10000), CDiv(r1, 1000), CDiv(r2, 100), CDiv(r3, 10), CMod(r3, 10)];
    if v >= 0 {
      PosChain(v);
    } else {
      NegChain(v);
    }
    FiveDigitsAre(v, c);
  }

  /** FiveDigits by its two cases. */
  lemma FiveDigitsAre(v: int, c: seq<int>)
    requires v >= 0 ==> Digits(v) == c
    requires v < 0 ==> Negated(Digits(-v)) == c
    ensures FiveDigits(v) == c
  {
  }

  /** The chain of a non-negative value is its decimal digits. */
  lemma PosChain(a: int)
    requires a >= 0
    ensures
      var r1 := CMod(a, 10000);
      var r2 := CMod(r1, 1000);
      var r3 := CMod(r2, 100);
      Digits(a) == [CDiv(a, 10000), CDiv(r1, 1000), CDiv(r2, 100), CDiv(r3, 10), CMod(r3, 10)]
  {
    PosSteps(a);
  }

  /** The chain of a negative value is the negated decimal digits of its magnitude. */
  lemma NegChain(v: int)
    requires v < 0
    ensures
      var r1 := CMod(v, 10000);
      var r2 := CMod(r1, 1000);
      var r3 := CMod(r2, 100);
      Negated(Digits(-v)) == [CDiv(v, 10000), CDiv(r1, 1000), CDiv(r2, 100), CDiv(r3, 10), CMod(r3, 10)]
  {
    NegSteps(v);
    var r1 := CMod(v, 10000);
    var r2 := CMod(r1, 1000);
    var r3 := CMod(r2, 100);
    NegatedDigits(v, CDiv(v, 10000), CDiv(r1, 1000), CDiv(r2, 100), CDiv(r3, 10), CMod(r3, 10));
  }

  /** Five values equal to the negated digits of -v, in order, are Negated(Digits(-v)). */
  lemma NegatedDigits(v: int, x0: int, x1: int, x2: int, x3: int, x4: int)
    requires v < 0
    requires x0 == -((-v) / 10000) && x1 == -(((-v) % 10000) / 1000) && x2 == -(((-v) % 1000) / 100)
    requires x3 == -(((-v) % 100) / 10) && x4 == -((-v) % 10)
    ensures Negated(Digits(-v)) == [x0, x1, x2, x3, x4]
  {
  }

  /** Each step of the chain of a non-negative value is an ordinary decimal digit. */
  lemma PosSteps(a: int)
    requires a >= 0
    ensures
      var r1 := CMod(a, 10000);
      var r2 := CMod(r1, 1000);
      var r3 := CMod(r2, 100);
      CDiv(a, 10000) == a / 10000 && CDiv(r1, 1000) == (a % 10000) / 1000 &&
      CDiv(r2, 100) == (a % 1000) / 100 && CDiv(r3, 10) == (a % 100) / 10 && CMod(r3, 10) == a % 10
  {
    ModChain(a);
    PosStep(a, 10000);
    PosStep(a % 10000, 1000);
    PosStep(a % 1000, 100);
    PosStep(a % 100, 10);
  }

  /** Each step of the chain of a negative value is a negated decimal digit of its magnitude. */
  lemma NegSteps(v: int)
    requires v < 0
    ensures
      var r1 := CMod(v, 10000);
      var r2 := CMod(r1, 1000);
      var r3 := CMod(r2, 100);
      CDiv(v, 10000) == -((-v) / 10000) && CDiv(r1, 1000) == -(((-v) % 10000) / 1000) &&
      CDiv(r2, 100) == -(((-v) % 1000) / 100) && CDiv(r3, 10) == -(((-v) % 100) / 10) &&
      CMod(r3, 10) == -((-v) % 10)
  {
    var a := -v;
    ModChain(a);
    NegLevel(v, a, 10000);
    var r1 := CMod(v, 10000);
    NegLevel(r1, a % 10000, 1000);
    var r2 := CMod(r1, 1000);
    NegLevel(r2, a % 1000, 100);
    var r3 := CMod(r2, 100);
    NegLevel(r3, a % 100, 10);
  }

  /** C division and remainder of a non-negative value are the Euclidean ones. */
  lemma PosStep(x: int, b: int)
    requires x >= 0 && b > 0
    ensures CDiv(x, b) == x / b && CMod(x, b) == x % b
  {
    assert x == (x / b) * b + x % b;
  }

  /** C division and remainder of a negated magnitude are the negated Euclidean ones. */
  lemma NegLevel(y: int, m: int, b: int)
    requires b > 0 && m >= 0 && y == -m
    ensures CDiv(y, b) == -(m / b) && CMod(y, b) == -(m % b)
  {
    assert m == (m / b) * b + m % b;
  }

  lemma ModChain(a: nat)
    ensures (a % 10000) % 1000 == a % 1000 && (a % 1000) % 100 == a % 100 && (a % 100) % 10 == a % 10
  {
    var q := a / 10000;
    DivUnique(a, 1000, q * 10 + (a % 10000) / 1000, (a % 10000) % 1000);
    DivUnique(a, 100, (a / 1000) * 10 + (a % 1000) / 100, (a % 1000) % 100);
    DivUnique(a, 10, (a / 100) * 10 + (a % 100) / 10, (a % 100) % 10);
  }

  /** The digits, weighted by their place values, add back up to the value. */
  lemma WeightedFiveDigits(v: int)
    ensures Weighted(FiveDigits(v)) == v
  {
    var a := if v >= 0 then v else -v;
    WeightedDigits(a);
    if v < 0 {
      var d := Digits(a);
      assert Weighted(Negated(d)) == -Weighted(d);
    }
  }

  /** The decimal digits, weighted by their place values, add back up to the value. */
  lemma WeightedDigits(a: nat)
    ensures Weighted(Digits(a)) == a
  {
    ModChain(a);
    assert a == (a / 10000) * 10000 + a % 10000;
    assert a % 10000 == ((a % 10000) / 1000) * 1000 + a % 1000;
    assert a % 1000 == ((a % 1000) / 100) * 100 + a % 100;
    assert a % 100 == ((a % 100) / 10) * 10 + a % 10;
  }

  /** For an in-range value each digit is 0..9, and the leading digits vanish exactly below the
      matching place value. */
  lemma FiveDigitsInRange(v: int)
    requires 0 <= v < 100000
    ensures forall i :: 0 <= i < 5 ==> 0 <= FiveDigits(v)[i] <= 9
    ensures FiveDigits(v)[0] == 0 <==> v < 10000
    ensures FiveDigits(v)[0] == 0 ==> (FiveDigits(v)[1] == 0 <==> v < 1000)
    ensures FiveDigits(v)[0] == FiveDigits(v)[1] == 0 ==> (FiveDigits(v)[2] == 0 <==> v < 100)
    ensures FiveDigits(v)[0] == FiveDigits(v)[1] == FiveDigits(v)[2] == 0 ==>
              (FiveDigits(v)[3] == 0 <==> v < 10)
    ensures FiveDigits(v)[0] == FiveDigits(v)[1] == FiveDigits(v)[2] == FiveDigits(v)[3] == 0 ==>
              (FiveDigits(v)[4] == 0 <==> v < 1)
  {
    ModChain(v);
  }

  /** Each digit as stored into the uint8_t array. */
  function StoredDigits(v: int): (s: seq<byte>)
    ensures |s| == 5
  {
    var d := FiveDigits(v);
    [ToByte(d[0]), ToByte(d[1]), ToByte(d[2]), ToByte(d[3]), ToByte(d[4])]
  }

  /** The blanking loop: leading zero bytes become 15 until the first non-zero byte. */
  function BlankLeadingZeros(s: seq<byte>): (r: seq<byte>)
    ensures |r| == |s|
  {
    if s == [] then []
    else if s[0] == 0 then [Blank] + BlankLeadingZeros(s[1..])
    else s
  }

  /** The five bytes setLeft/setRight store for `active`. */
  function Encode(active: int): (r: seq<byte>)
    ensures |r| == 5
  {
    BlankLeadingZeros(StoredDigits(active))
  }

  /** A byte read back as a digit, with the blank code read as 0. */
  function DigitValue(b: byte): nat
  {
    if b == Blank then 0 else b as nat
  }

  /** The number a five-nibble display shows. */
  function Decode(s: seq<byte>): int
    requires |s| == 5
  {
    Weighted([DigitValue(s[0]), DigitValue(s[1]), DigitValue(s[2]), DigitValue(s[3]), DigitValue(s[4])])
  }

  /** Position i of the blanked string is 15 when every byte up to i is zero, and is the original
      byte otherwise. */
  lemma {:induction false} BlankLeadingZerosAt(s: seq<byte>, i: nat)
    requires i < |s|
    ensures BlankLeadingZeros(s)[i] == if forall k :: 0 <= k <= i ==> s[k] == 0 then Blank else s[i]
  {
    if s[0] != 0 {
    } else if i > 0 {
      BlankLeadingZerosAt(s[1..], i - 1);
      if forall k :: 0 <= k <= i ==> s[k] == 0 {
        assert forall k :: 0 <= k <= i - 1 ==> s[1..][k] == 0 by {
          forall k | 0 <= k <= i - 1 ensures s[1..][k] == 0 {
            assert s[1..][k] == s[k + 1];
          }
        }
      } else {
        var k :| 0 <= k <= i && s[k] != 0;
        assert s[1..][k - 1] == s[k];
      }
    }
  }

  /** In range, the leading digits are all zero exactly when the value is below the place value
      of position i. */
  lemma LeadingZerosBelow(v: int, i: nat)
    requires 0 <= v < 100000 && i < 5
    ensures (forall k :: 0 <= k <= i ==> FiveDigits(v)[k] == 0) <==> v < PlaceValue[i]
  {
    var d := FiveDigits(v);
    FiveDigitsInRange(v);
    var zeros := forall k :: 0 <= k <= i ==> d[k] == 0;
    if i == 0 {
      assert zeros <==> d[0] == 0;
    } else if i == 1 {
      assert zeros <==> d[0] == 0 && d[1] == 0;
    } else if i == 2 {
      assert zeros <==> d[0] == 0 && d[1] == 0 && d[2] == 0;
    } else if i == 3 {
      assert zeros <==> d[0] == 0 && d[1] == 0 && d[2] == 0 && d[3] == 0;
    } else {
      assert zeros <==> d[0] == 0 && d[1] == 0 && d[2] == 0 && d[3] == 0 && d[4] == 0;
    }
  }

  /** Every nibble setLeft/setRight produces for an in-range value is a digit 0..9 or the blank 15. */
  lemma EncodeNibbles(v: int, i: nat)
    requires 0 <= v < 100000 && i < 5
    ensures Encode(v)[i] as int <= 9 || Encode(v)[i] == Blank
  {
    FiveDigitsInRange(v);
    BlankLeadingZerosAt(StoredDigits(v), i);
  }

  /** Exactly the leading-zero positions are blanked: position i is 15 iff v < 10^(4-i). */
  lemma EncodeBlanksLeadingZeros(v: int, i: nat)
    requires 0 <= v < 100000 && i < 5
    ensures Encode(v)[i] == Blank <==> v < PlaceValue[i]
  {
    var s := StoredDigits(v);
    BlankLeadingZerosAt(s, i);
    LeadingZerosBelow(v, i);
    FiveDigitsInRange(v);
    assert forall k :: 0 <= k < 5 ==> s[k] as int == FiveDigits(v)[k];
  }

  /** Reading the display back, with blanks as zeros, gives the value that was encoded. */
  lemma DecodeEncode(v: int)
    requires 0 <= v < 100000
    ensures Decode(Encode(v)) == v
  {
    var d := FiveDigits(v);
    var s := StoredDigits(v);
    var e := Encode(v);
    FiveDigitsInRange(v);
    WeightedFiveDigits(v);
    forall i | 0 <= i < 5
      ensures DigitValue(e[i]) == d[i]
    {
      BlankLeadingZerosAt(s, i);
    }
    assert [DigitValue(e[0]), DigitValue(e[1]), DigitValue(e[2]), DigitValue(e[3]), DigitValue(e[4])] == d;
  }

  /** Different in-range values never show the same five nibbles. */
  lemma EncodeInjective(v: int, w: int)
    requires 0 <= v < 100000 && 0 <= w < 100000
    requires Encode(v) == Encode(w)
    ensures v == w
  {
    DecodeEncode(v);
    DecodeEncode(w);
  }

  /** A value below 10 shows only its last digit, and zero shows nothing at all. */
  lemma EncodeSingleDigit(v: int)
    requires 0 <= v < 10
    ensures Encode(v) == [Blank, Blank, Blank, Blank, if v == 0 then Blank else v as byte]
  {
    var e := Encode(v);
    EncodeBlanksLeadingZeros(v, 0);
    EncodeBlanksLeadingZeros(v, 1);
    EncodeBlanksLeadingZeros(v, 2);
    EncodeBlanksLeadingZeros(v, 3);
    EncodeBlanksLeadingZeros(v, 4);
    if v > 0 {
      var d := FiveDigits(v);
      FiveDigitsInRange(v);
      assert d[0] == 0 && d[4] == v;
      BlankLeadingZerosAt(StoredDigits(v), 4);
      assert e[4] == StoredDigits(v)[4];
    }
    assert e == [e[0], e[1], e[2], e[3], e[4]];
  }

  /** setLeft(0) and setLeft(7). */
  lemma EncodeExamples()
    ensures Encode(0) == [Blank, Blank, Blank, Blank, Blank]
    ensures Encode(7) == [Blank, Blank, Blank, Blank, 7]
  {
    EncodeSingleDigit(0);
    EncodeSingleDigit(7);
  }
}
