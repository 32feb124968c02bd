/** Bytes, and the big-endian integers of the envelope header. */
module Bytes {
  type Byte = x: int | 0 <= x < 256

  const U64_MAX: nat := 0xFFFF_FFFF_FFFF_FFFF

  /** 256 to the power `width`: how many values `width` bytes can hold. */
  function Capacity(width: nat): (values: nat)
    ensures 1 <= values
  {
    if width == 0 then 1 else 256 * Capacity(width - 1)
  }

  /** The last `width` base-256 digits of `n`, most significant first (`to_be_bytes`). */
  function BigEndian(n: nat, width: nat): (bytes: seq<Byte>)
    ensures |bytes| == width
  {
    if width == 0 then [] else BigEndian(n / 256, width - 1) + [n % 256]
  }

  /** The number that `bytes` spell, most significant first (`from_be_bytes`). */
  function FromBigEndian(bytes: seq<Byte>): nat {
    if bytes == [] then 0
    else FromBigEndian(bytes[..|bytes| - 1]) * 256 + bytes[|bytes| - 1]
  }

  lemma {:induction false} DecodesWhatItEncodes(n: nat, width: nat)
    requires n < Capacity(width)
    ensures FromBigEndian(BigEndian(n, width)) == n
  {
    if width == 0 {
    } else {
      DecodesWhatItEncodes(n / 256, width - 1);
      assert BigEndian(n, width)[..width - 1] == BigEndian(n / 256, width - 1);
    }
  }

  lemma {:induction false} EncodesWhatItDecodes(bytes: seq<Byte>)
    ensures FromBigEndian(bytes) < Capacity(|bytes|)
    ensures BigEndian(FromBigEndian(bytes), |bytes|) == bytes
  {
    if bytes == [] {
    } else {
      var front, last := bytes[..|bytes| - 1], bytes[|bytes| - 1];
      EncodesWhatItDecodes(front);
      assert FromBigEndian(bytes) / 256 == FromBigEndian(front);
      assert FromBigEndian(bytes) % 256 == last;
    }
  }

  /** Byte `i` of `width` is the digit of weight 256 to the power `width - 1 - i`: the most significant byte
      comes first. */
  lemma {:induction false} BigEndianDigit(n: nat, width: nat, i: nat)
    requires i < width
    ensures BigEndian(n, width)[i] == n / Capacity(width - 1 - i) % 256
  {
    if i < width - 1 {
      BigEndianDigit(n / 256, width - 1, i);
      DividedTwice(n, width - 2 - i);
    }
  }

  lemma DividedTwice(n: nat, count: nat)
    ensures n / 256 / Capacity(count) == n / Capacity(count + 1)
  {
    var c := Capacity(count);
    var q, r := n / 256, n % 256;
    var h, l := q / c, q % c;
    assert n == 256 * (h * c + l) + r == h * (256 * c) + (256 * l + r);
    assert 0 <= 256 * l + r < 256 * c;
    QuotientIs(n, 256 * c, h, 256 * l + r);
  }

  lemma QuotientIs(n: nat, d: nat, q: nat, r: nat)
    requires r < d && n == q * d + r
    ensures n / d == q
  {
    var other := n / d;
    assert n == other * d + n % d;
    assert (other - q) * d == r - n % d;
    MultiplesAreFar(other - q, d);
  }

  lemma MultiplesAreFar(k: int, d: nat)
    ensures k >= 1 ==> k * d >= d
    ensures k <= -1 ==> k * d + d <= 0
  {
  }

  lemma TwoBytesSpell(bytes: seq<Byte>)
    requires |bytes| == 2
    ensures FromBigEndian(bytes) == 0x100 * (bytes[0] as nat) + bytes[1]
  {
    assert bytes[..1] == [bytes[0]];
    assert FromBigEndian([bytes[0]]) == bytes[0];
  }

  lemma {:induction false} FourBytesSpell(bytes: seq<Byte>)
    requires |bytes| >= 4
    ensures var rest, n := bytes[..|bytes| - 4], |bytes|;
            FromBigEndian(bytes)
            == FromBigEndian(rest) * 0x1_0000_0000
               + 0x100_0000 * (bytes[n - 4] as nat) + 0x1_0000 * (bytes[n - 3] as nat)
               + 0x100 * (bytes[n - 2] as nat) + bytes[n - 1]
  {
    var n := |bytes|;
    var three, two, one := bytes[..n - 3], bytes[..n - 2], bytes[..n - 1];
    assert one[..n - 2] == two && two[..n - 3] == three && three[..n - 4] == bytes[..n - 4];
    assert FromBigEndian(bytes) == FromBigEndian(one) * 256 + bytes[n - 1];
    assert FromBigEndian(one) == FromBigEndian(two) * 256 + bytes[n - 2];
    assert FromBigEndian(two) == FromBigEndian(three) * 256 + bytes[n - 3];
    assert FromBigEndian(three) == FromBigEndian(bytes[..n - 4]) * 256 + bytes[n - 4];
  }

  /** Eight bytes, the first one counting most. */
  lemma EightBytesSpell(bytes: seq<Byte>)
    requires |bytes| == 8
    ensures FromBigEndian(bytes)
            == 0x100_0000_0000_0000 * (bytes[0] as nat) + 0x1_0000_0000_0000 * (bytes[1] as nat)
               + 0x100_0000_0000 * (bytes[2] as nat) + 0x1_0000_0000 * (bytes[3] as nat)
               + 0x100_0000 * (bytes[4] as nat) + 0x1_0000 * (bytes[5] as nat)
               + 0x100 * (bytes[6] as nat) + bytes[7]
  {
    FourBytesSpell(bytes);
    FourBytesSpell(bytes[..4]);
    assert bytes[..4][..0] == [];
  }

  lemma CapacitiesAre()
    ensures Capacity(0) == 1 && Capacity(1) == 0x100 && Capacity(2) == 0x1_0000 && Capacity(3) == 0x100_0000
    ensures Capacity(4) == 0x1_0000_0000 && Capacity(5) == 0x100_0000_0000
    ensures Capacity(6) == 0x1_0000_0000_0000 && Capacity(7) == 0x100_0000_0000_0000
  {
    assert Capacity(2) == 0x1_0000;
    assert Capacity(4) == 0x1_0000_0000;
    assert Capacity(6) == 0x1_0000_0000_0000;
  }

  /** The eight bytes of a number, the most significant first. */
  lemma EightBytesOf(n: nat)
    ensures var bytes := BigEndian(n, 8);
            && bytes[0] == n / 0x100_0000_0000_0000 % 256 && bytes[1] == n / 0x1_0000_0000_0000 % 256
            && bytes[2] == n / 0x100_0000_0000 % 256 && bytes[3] == n / 0x1_0000_0000 % 256
            && bytes[4] == n / 0x100_0000 % 256 && bytes[5] == n / 0x1_0000 % 256
            && bytes[6] == n / 0x100 % 256 && bytes[7] == n % 256
  {
    CapacitiesAre();
    BigEndianDigit(n, 8, 0);
    BigEndianDigit(n, 8, 1);
    BigEndianDigit(n, 8, 2);
    BigEndianDigit(n, 8, 3);
    BigEndianDigit(n, 8, 4);
    BigEndianDigit(n, 8, 5);
    BigEndianDigit(n, 8, 6);
    BigEndianDigit(n, 8, 7);
  }

  lemma EightBytesHoldU64()
    ensures Capacity(8) == U64_MAX + 1
  {
    assert Capacity(4) == 0x1_0000_0000;
  }
}
