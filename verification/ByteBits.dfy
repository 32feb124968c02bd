/** A byte as eight bits, and eight bits as a byte, by way of binary digits, so that no proof leans on
    the solver's integer-to-bit-vector conversions. */
module ByteBits {
  import opened Bytes

  /** Binary digit number `place` of `n`, counted from the least significant. */
  predicate Digit(n: nat, place: nat) {
    if place == 0 then n % 2 == 1 else Digit(n / 2, place - 1)
  }

  function PowerOfTwo(count: nat): nat {
    if count == 0 then 1 else 2 * PowerOfTwo(count - 1)
  }

  lemma {:induction false} DigitsDetermineTheNumber(a: nat, b: nat, count: nat)
    requires a < PowerOfTwo(count) && b < PowerOfTwo(count)
    requires forall place | 0 <= place < count :: Digit(a, place) == Digit(b, place)
    ensures a == b
  {
    if count == 0 {
    } else {
      forall place | 0 <= place < count - 1 ensures Digit(a / 2, place) == Digit(b / 2, place) {
        assert Digit(a, place + 1) == Digit(b, place + 1);
      }
      assert Digit(a, 0) == Digit(b, 0);
      DigitsDetermineTheNumber(a / 2, b / 2, count - 1);
    }
  }

  function Pack(d0: bool, d1: bool, d2: bool, d3: bool, d4: bool, d5: bool, d6: bool, d7: bool): bv8 {
    (if d0 then 0x01 else 0) | (if d1 then 0x02 else 0) | (if d2 then 0x04 else 0) | (if d3 then 0x08 else 0) |
    (if d4 then 0x10 else 0) | (if d5 then 0x20 else 0) | (if d6 then 0x40 else 0) | (if d7 then 0x80 else 0)
  }

  predicate Bit(bits: bv8, place: nat) {
    match place
    case 0 => bits & 0x01 != 0
    case 1 => bits & 0x02 != 0
    case 2 => bits & 0x04 != 0
    case 3 => bits & 0x08 != 0
    case 4 => bits & 0x10 != 0
    case 5 => bits & 0x20 != 0
    case 6 => bits & 0x40 != 0
    case _ => bits & 0x80 != 0
  }

  lemma PackKeepsEveryDigit(d0: bool, d1: bool, d2: bool, d3: bool, d4: bool, d5: bool, d6: bool, d7: bool)
    ensures var bits := Pack(d0, d1, d2, d3, d4, d5, d6, d7);
            && Bit(bits, 0) == d0 && Bit(bits, 1) == d1 && Bit(bits, 2) == d2 && Bit(bits, 3) == d3
            && Bit(bits, 4) == d4 && Bit(bits, 5) == d5 && Bit(bits, 6) == d6 && Bit(bits, 7) == d7
  {
  }

  /** The eight bits of a byte. */
  function Bits(b: Byte): bv8 {
    Pack(Digit(b, 0), Digit(b, 1), Digit(b, 2), Digit(b, 3), Digit(b, 4), Digit(b, 5), Digit(b, 6), Digit(b, 7))
  }

  lemma BitsAreDigits(b: Byte, place: nat)
    requires place < 8
    ensures Bit(Bits(b), place) == Digit(b, place)
  {
    PackKeepsEveryDigit(
      Digit(b, 0), Digit(b, 1), Digit(b, 2), Digit(b, 3), Digit(b, 4), Digit(b, 5), Digit(b, 6), Digit(b, 7));
  }

  lemma BitsAreInjective(a: Byte, b: Byte)
    requires Bits(a) == Bits(b)
    ensures a == b
  {
    forall place | 0 <= place < 8 ensures Digit(a, place) == Digit(b, place) {
      BitsAreDigits(a, place);
      BitsAreDigits(b, place);
    }
    assert PowerOfTwo(4) == 16;
    DigitsDetermineTheNumber(a, b, 8);
  }

  /** The number spelled by the lowest `count` bits. */
  function FromBits(bits: bv8, count: nat): (n: nat)
    ensures n < PowerOfTwo(count)
  {
    if count == 0 then 0
    else FromBits(bits, count - 1) + (if Bit(bits, count - 1) then PowerOfTwo(count - 1) else 0)
  }

  lemma {:induction false} NumbersDetermineTheBits(a: bv8, b: bv8, count: nat, place: nat)
    requires FromBits(a, count) == FromBits(b, count) && place < count
    ensures Bit(a, place) == Bit(b, place)
  {
    var low, high, top := FromBits(a, count - 1), FromBits(b, count - 1), PowerOfTwo(count - 1);
    assert low < top && high < top;
    assert Bit(a, count - 1) == Bit(b, count - 1) && low == high;
    if place < count - 1 {
      NumbersDetermineTheBits(a, b, count - 1, place);
    }
  }

  /** The byte that eight bits spell. */
  function Number(bits: bv8): Byte {
    assert PowerOfTwo(4) == 16;
    FromBits(bits, 8)
  }

  lemma LowBitsCount(bits: bv8)
    ensures FromBits(bits, 4)
            == (if bits & 0x01 != 0 then 1 else 0) + (if bits & 0x02 != 0 then 2 else 0)
               + (if bits & 0x04 != 0 then 4 else 0) + (if bits & 0x08 != 0 then 8 else 0)
  {
    assert FromBits(bits, 2) == (if Bit(bits, 0) then 1 else 0) + (if Bit(bits, 1) then 2 else 0);
  }

  lemma HighBitsCount(bits: bv8)
    ensures FromBits(bits, 8)
            == FromBits(bits, 4) + (if bits & 0x10 != 0 then 16 else 0) + (if bits & 0x20 != 0 then 32 else 0)
               + (if bits & 0x40 != 0 then 64 else 0) + (if bits & 0x80 != 0 then 128 else 0)
  {
    assert PowerOfTwo(4) == 16;
    assert FromBits(bits, 6)
           == FromBits(bits, 4) + (if Bit(bits, 4) then 16 else 0) + (if Bit(bits, 5) then 32 else 0);
  }

  /** Each bit counts as much as its place says. */
  lemma NumberCounts(bits: bv8)
    ensures Number(bits)
            == (if bits & 0x01 != 0 then 1 else 0) + (if bits & 0x02 != 0 then 2 else 0)
               + (if bits & 0x04 != 0 then 4 else 0) + (if bits & 0x08 != 0 then 8 else 0)
               + (if bits & 0x10 != 0 then 16 else 0) + (if bits & 0x20 != 0 then 32 else 0)
               + (if bits & 0x40 != 0 then 64 else 0) + (if bits & 0x80 != 0 then 128 else 0)
  {
    LowBitsCount(bits);
    HighBitsCount(bits);
  }

  lemma NumberIsInjective(a: bv8, b: bv8)
    requires Number(a) == Number(b)
    ensures a == b
  {
    forall place | 0 <= place < 8 ensures Bit(a, place) == Bit(b, place) {
      NumbersDetermineTheBits(a, b, 8, place);
    }
    BitsDetermineTheByte(a, b);
  }

  lemma BitsDetermineTheByte(a: bv8, b: bv8)
    requires forall place | 0 <= place < 8 :: Bit(a, place) == Bit(b, place)
    ensures a == b
  {
    assert Bit(a, 0) == Bit(b, 0);
    assert Bit(a, 1) == Bit(b, 1);
    assert Bit(a, 2) == Bit(b, 2);
    assert Bit(a, 3) == Bit(b, 3);
    assert Bit(a, 4) == Bit(b, 4);
    assert Bit(a, 5) == Bit(b, 5);
    assert Bit(a, 6) == Bit(b, 6);
    assert Bit(a, 7) == Bit(b, 7);
  }
}
