/** CRC32C, the checksum of RFC 3720 section 12.1, computed bit by bit. `Append` plays the part of
    `crc32c::crc32c_append`, and `Checksum` that of `crc32c::crc32c`. */
module Crc32c {
  import opened ByteBits
  import opened Bytes

  // The Castagnoli polynomial, with its bits reversed.
  const POLYNOMIAL: bv32 := 0x82F6_3B78

  function BitStep(register: bv32): bv32 {
    if register & 1 == 1 then (register >> 1) ^ POLYNOMIAL else register >> 1
  }

  /** `count` bits of shifting; eight of them are one table lookup of a table-driven version. */
  function Shift(register: bv32, count: nat): bv32
    decreases count, register
  {
    if count == 0 then register else BitStep(Shift(register, count - 1))
  }

  function Mix(register: bv32, bits: bv8): bv32 {
    register ^ (bits as bv32)
  }

  function ByteStep(register: bv32, bits: bv8): bv32 {
    Shift(Mix(register, bits), 8)
  }

  function Complement(register: bv32): bv32 {
    !register
  }

  /** The checksum after `bytes` more: the register's complement. */
  function Append(checksum: bv32, bytes: seq<Byte>): bv32
    decreases |bytes|, 1
  {
    Complement(Register(checksum, bytes))
  }

  /** The shift register after `bytes` more. */
  function Register(checksum: bv32, bytes: seq<Byte>): bv32
    decreases |bytes|, 0
  {
    if bytes == [] then Complement(checksum)
    else ByteStep(Complement(Append(checksum, bytes[..|bytes| - 1])), Bits(bytes[|bytes| - 1]))
  }

  function Checksum(bytes: seq<Byte>): bv32 {
    Append(0, bytes)
  }

  lemma ComplementTwice(register: bv32)
    ensures Complement(Complement(register)) == register
  {
  }

  /** The polynomial's top bit is set, so the bit that falls out can be read off the result. */
  function UndoBitStep(register: bv32): bv32 {
    if register & 0x8000_0000 != 0 then ((register ^ POLYNOMIAL) << 1) | 1 else register << 1
  }

  lemma BitStepIsInjective(a: bv32, b: bv32)
    requires BitStep(a) == BitStep(b)
    ensures a == b
  {
    assert UndoBitStep(BitStep(a)) == a;
    assert UndoBitStep(BitStep(b)) == b;
  }

  lemma {:induction false} ShiftIsInjective(a: bv32, b: bv32, count: nat)
    requires Shift(a, count) == Shift(b, count)
    ensures a == b
  {
    if count == 0 {
    } else {
      BitStepIsInjective(Shift(a, count - 1), Shift(b, count - 1));
      ShiftIsInjective(a, b, count - 1);
    }
  }

  lemma MixIsInjective(p: bv32, q: bv32, a: bv8, b: bv8)
    ensures Mix(p, a) == Mix(q, a) ==> p == q
    ensures Mix(p, a) == Mix(p, b) ==> a == b
  {
  }

  lemma ByteStepIsInjectiveInTheRegister(p: bv32, q: bv32, bits: bv8)
    requires ByteStep(p, bits) == ByteStep(q, bits)
    ensures p == q
  {
    ShiftIsInjective(Mix(p, bits), Mix(q, bits), 8);
    MixIsInjective(p, q, bits, bits);
  }

  lemma ByteStepIsInjectiveInTheByte(register: bv32, a: bv8, b: bv8)
    requires ByteStep(register, a) == ByteStep(register, b)
    ensures a == b
  {
    ShiftIsInjective(Mix(register, a), Mix(register, b), 8);
    MixIsInjective(register, register, a, b);
  }

  /** One byte more, on checksums instead of registers. */
  lemma AppendOne(checksum: bv32, bytes: seq<Byte>)
    requires bytes != []
    ensures Append(checksum, bytes)
            == Complement(ByteStep(Complement(Append(checksum, bytes[..|bytes| - 1])), Bits(bytes[|bytes| - 1])))
  {
  }

  lemma AppendNone(checksum: bv32)
    ensures Append(checksum, []) == checksum
  {
    ComplementTwice(checksum);
  }

  /** Checksumming in pieces is checksumming the whole, whatever the pieces. */
  lemma {:induction false} AppendIsIncremental(checksum: bv32, front: seq<Byte>, back: seq<Byte>)
    ensures Append(checksum, front + back) == Append(Append(checksum, front), back)
  {
    if back == [] {
      assert front + back == front;
      AppendNone(Append(checksum, front));
    } else {
      var init, last := back[..|back| - 1], back[|back| - 1];
      AppendIsIncremental(checksum, front, init);
      AppendOne(checksum, front + back);
      AppendOne(Append(checksum, front), back);
      assert (front + back)[..|front + back| - 1] == front + init;
    }
  }

  lemma AppendOneIsInjective(p: bv32, q: bv32, a: bv8, b: bv8)
    requires Complement(ByteStep(Complement(p), a)) == Complement(ByteStep(Complement(q), b))
    ensures a == b ==> p == q
    ensures p == q ==> a == b
  {
    ComplementTwice(ByteStep(Complement(p), a));
    ComplementTwice(ByteStep(Complement(q), b));
    ComplementTwice(p);
    ComplementTwice(q);
    if a == b {
      ByteStepIsInjectiveInTheRegister(Complement(p), Complement(q), a);
    }
    if p == q {
      ByteStepIsInjectiveInTheByte(Complement(p), a, b);
    }
  }

  /** Different checksums stay different while the same bytes go by. */
  lemma {:induction false} AppendIsInjective(p: bv32, q: bv32, bytes: seq<Byte>)
    requires Append(p, bytes) == Append(q, bytes)
    ensures p == q
  {
    if bytes == [] {
      AppendNone(p);
      AppendNone(q);
    } else {
      var init, last := bytes[..|bytes| - 1], bytes[|bytes| - 1];
      AppendOne(p, bytes);
      AppendOne(q, bytes);
      AppendOneIsInjective(Append(p, init), Append(q, init), Bits(last), Bits(last));
      AppendIsInjective(p, q, init);
    }
  }

  /** Every change of a single byte changes the checksum. */
  lemma ChangingOneByteChangesTheChecksum(bytes: seq<Byte>, at: nat, replacement: Byte)
    requires at < |bytes| && bytes[at] != replacement
    ensures Checksum(bytes[at := replacement]) != Checksum(bytes)
  {
    var changed := bytes[at := replacement];
    var front, p, q := Checksum(bytes[..at]), Checksum(bytes[..at + 1]), Checksum(changed[..at + 1]);
    assert bytes == bytes[..at + 1] + bytes[at + 1..] && changed == changed[..at + 1] + bytes[at + 1..];
    AppendIsIncremental(0, bytes[..at + 1], bytes[at + 1..]);
    AppendIsIncremental(0, changed[..at + 1], bytes[at + 1..]);
    if Checksum(changed) == Checksum(bytes) {
      AppendIsInjective(p, q, bytes[at + 1..]);
      AppendOne(0, bytes[..at + 1]);
      AppendOne(0, changed[..at + 1]);
      assert bytes[..at + 1][..at] == bytes[..at] && changed[..at + 1][..at] == bytes[..at];
      AppendOneIsInjective(front, front, Bits(bytes[at]), Bits(replacement));
      BitsAreInjective(bytes[at], replacement);
    }
  }

  lemma FirstKnownRegisters()
    ensures ByteStep(0xFFFF_FFFF, 0x31) == 0x6F0A_661C
    ensures ByteStep(0x6F0A_661C, 0x32) == 0x8CAA_3B9F
    ensures ByteStep(0x8CAA_3B9F, 0x33) == 0xEF84_D04D
  {
  }

  lemma MiddleKnownRegisters()
    ensures ByteStep(0xEF84_D04D, 0x34) == 0x09C5_0B11
    ensures ByteStep(0x09C5_0B11, 0x35) == 0xE72E_DCCA
    ensures ByteStep(0xE72E_DCCA, 0x36) == 0xBECA_8E79
  {
  }

  lemma LastKnownRegisters()
    ensures ByteStep(0xBECA_8E79, 0x37) == 0xEDBD_6815
    ensures ByteStep(0xEDBD_6815, 0x38) == 0x9F78_7F65
    ensures ByteStep(0x9F78_7F65, 0x39) == 0x1CF9_6D7C
  {
  }

  /** Three bytes more, on registers. */
  lemma ThreeMore(bytes: seq<Byte>, at: nat, p: bv32, q: bv32, r: bv32, s: bv32)
    requires at + 3 <= |bytes| && Register(0, bytes[..at]) == p
    requires ByteStep(p, Bits(bytes[at])) == q
    requires ByteStep(q, Bits(bytes[at + 1])) == r
    requires ByteStep(r, Bits(bytes[at + 2])) == s
    ensures Register(0, bytes[..at + 3]) == s
  {
    RegisterOne(bytes, at);
    RegisterOne(bytes, at + 1);
    RegisterOne(bytes, at + 2);
  }

  lemma RegisterOne(bytes: seq<Byte>, at: nat)
    requires at < |bytes|
    ensures Register(0, bytes[..at + 1]) == ByteStep(Register(0, bytes[..at]), Bits(bytes[at]))
  {
    assert bytes[..at + 1][..at] == bytes[..at];
    ComplementTwice(Register(0, bytes[..at]));
  }

  /** Nine bytes with the bits of the characters "1" to "9". */
  ghost predicate OneToNine(bytes: seq<Byte>) {
    && |bytes| == 9
    && Bits(bytes[0]) == 0x31 && Bits(bytes[1]) == 0x32 && Bits(bytes[2]) == 0x33
    && Bits(bytes[3]) == 0x34 && Bits(bytes[4]) == 0x35 && Bits(bytes[5]) == 0x36
    && Bits(bytes[6]) == 0x37 && Bits(bytes[7]) == 0x38 && Bits(bytes[8]) == 0x39
  }

  /** The characters "0" to "9" are 0x30 to 0x39: a digit's bits are 0011 and those of its value. */
  lemma DigitsInBits(b: Byte)
    requires 0x30 <= b < 0x40
    ensures Bits(b) == Pack(b % 2 == 1, b / 2 % 2 == 1, b / 4 % 2 == 1, b / 8 % 2 == 1, true, true, false, false)
  {
    var h1, h2, h3, h4, h5, h6, h7 := b / 2, b / 4, b / 8, b / 16, b / 32, b / 64, b / 128;
    assert h1 / 2 == h2 && h2 / 2 == h3 && h3 / 2 == h4 && h4 / 2 == h5 && h5 / 2 == h6 && h6 / 2 == h7;
    assert Digit(b, 1) == Digit(h1, 0);
    assert Digit(b, 2) == Digit(h1, 1) == Digit(h2, 0);
    assert Digit(b, 3) == Digit(h1, 2) == Digit(h2, 1) == Digit(h3, 0);
    assert Digit(b, 4) == Digit(h1, 3) == Digit(h2, 2) == Digit(h3, 1) == Digit(h4, 0);
    assert Digit(b, 5) == Digit(h1, 4) == Digit(h2, 3) == Digit(h3, 2) == Digit(h4, 1) == Digit(h5, 0);
    assert Digit(b, 6) == Digit(h1, 5) == Digit(h2, 4) == Digit(h3, 3) == Digit(h4, 2) == Digit(h5, 1) == Digit(h6, 0);
    assert Digit(h1, 6) == Digit(h2, 5) == Digit(h3, 4) == Digit(h4, 3) == Digit(h5, 2) == Digit(h6, 1) == Digit(h7, 0);
    assert Digit(b, 7) == Digit(h1, 6);
  }

  lemma CharactersInBits(bytes: seq<Byte>)
    requires |bytes| == 9 && forall i | 0 <= i < 9 :: bytes[i] == 0x31 + i
    ensures OneToNine(bytes)
  {
    forall i | 0 <= i < 9 {
      DigitsInBits(bytes[i]);
    }
  }

  lemma OneToThree(bytes: seq<Byte>)
    requires OneToNine(bytes)
    ensures Register(0, bytes[..3]) == 0xEF84_D04D
  {
    FirstKnownRegisters();
    assert Register(0, bytes[..0]) == 0xFFFF_FFFF;
    ThreeMore(bytes, 0, 0xFFFF_FFFF, 0x6F0A_661C, 0x8CAA_3B9F, 0xEF84_D04D);
  }

  lemma OneToSix(bytes: seq<Byte>)
    requires OneToNine(bytes)
    ensures Register(0, bytes[..6]) == 0xBECA_8E79
  {
    OneToThree(bytes);
    MiddleKnownRegisters();
    ThreeMore(bytes, 3, 0xEF84_D04D, 0x09C5_0B11, 0xE72E_DCCA, 0xBECA_8E79);
  }

  /** The check value published for CRC32C: the checksum of the characters "123456789". */
  lemma KnownCheckValue(bytes: seq<Byte>)
    requires |bytes| == 9 && forall i | 0 <= i < 9 :: bytes[i] == 0x31 + i
    ensures Checksum(bytes) == 0xE306_9283
  {
    CharactersInBits(bytes);
    OneToSix(bytes);
    LastKnownRegisters();
    ThreeMore(bytes, 6, 0xBECA_8E79, 0xEDBD_6815, 0x9F78_7F65, 0x1CF9_6D7C);
    assert bytes[..9] == bytes;
  }
}
