/** What an envelope is, byte for byte, and what reading one has to answer: the file layout of
    FORMAT.md as functions, and the laws of that layout. The loops of `src/format.rs` are proved
    against these functions in EnvelopeIo.dfy. */
module Envelope {
  import opened ByteBits
  import opened Bytes
  import opened Config
  import opened Crc32c
  import opened Results

  /** Eight domain bytes, the version in two and the payload length in eight. */
  function Header(format: BlobFormat, size: nat): (header: seq<Byte>)
    requires |format.domain| == DOMAIN_TAG_LEN
    ensures |header| == HEADER_LEN
  {
    format.domain + BigEndian(format.version, 2) + BigEndian(size, 8)
  }

  /** The `width` low bytes of `word`, most significant first. */
  function WordBytes(word: bv32, width: nat): (bytes: seq<Byte>)
    ensures |bytes| == width
    decreases width, word
  {
    if width == 0 then [] else WordBytes(word >> 8, width - 1) + [Number(LowByte(word))]
  }

  function LowByte(word: bv32): bv8 {
    (word & 0xFF) as bv8
  }

  function ChecksumBytes(checksum: bv32): (bytes: seq<Byte>)
    ensures |bytes| == CHECKSUM_LEN
  {
    WordBytes(checksum, CHECKSUM_LEN)
  }

  /** The words agree in their `width` low bytes. */
  predicate SameLowBytes(a: bv32, b: bv32, width: nat)
    decreases width
  {
    width == 0 || (LowByte(a) == LowByte(b) && SameLowBytes(a >> 8, b >> 8, width - 1))
  }

  lemma {:induction false} WordBytesDetermineTheLowBytes(a: bv32, b: bv32, width: nat)
    requires WordBytes(a, width) == WordBytes(b, width)
    ensures SameLowBytes(a, b, width)
    decreases width
  {
    if width == 0 {
    } else {
      var x, y := WordBytes(a, width), WordBytes(b, width);
      assert x[width - 1] == Number(LowByte(a)) && y[width - 1] == Number(LowByte(b));
      NumberIsInjective(LowByte(a), LowByte(b));
      assert x[..width - 1] == WordBytes(a >> 8, width - 1) && y[..width - 1] == WordBytes(b >> 8, width - 1);
      WordBytesDetermineTheLowBytes(a >> 8, b >> 8, width - 1);
    }
  }

  lemma FourBytesDetermineTheWord(a: bv32, b: bv32)
    requires SameLowBytes(a, b, 4)
    ensures a == b
  {
  }

  lemma ChecksumBytesAreInjective(a: bv32, b: bv32)
    requires ChecksumBytes(a) == ChecksumBytes(b)
    ensures a == b
  {
    WordBytesDetermineTheLowBytes(a, b, CHECKSUM_LEN);
    FourBytesDetermineTheWord(a, b);
  }

  /** The complete file for `payload`. */
  function Encode(format: BlobFormat, payload: seq<Byte>): (file: seq<Byte>)
    requires |format.domain| == DOMAIN_TAG_LEN
    ensures |file| == HEADER_LEN + |payload| + CHECKSUM_LEN
  {
    var covered := Header(format, |payload|) + payload;
    covered + ChecksumBytes(Checksum(covered))
  }

  /** A byte source: its bytes, and the offset from which on reads fail, if they ever do. */
  datatype Source = Source(data: seq<Byte>, breaksAt: Option<nat>) {
    predicate Breaks() {
      breaksAt.Some? && breaksAt.value <= |data|
    }

    /** How many bytes can be read before the end or the failure. */
    function Readable(): (n: nat)
      ensures n <= |data|
    {
      if Breaks() then breaksAt.value else |data|
    }

    /** What an exact read reports when it runs past the readable bytes. */
    function Shortage(section: Section): Error {
      if Breaks() then Io(ReadEnvelope) else TruncatedEnvelope(section)
    }
  }

  /** The checked payload length of an envelope. */
  function DecodeHeader(format: BlobFormat, source: Source, maximum: nat): (r: Result<nat>)
    ensures r.Ok? ==> HEADER_LEN <= source.Readable() && r.value <= maximum
  {
    var data := source.data;
    if source.Readable() < 8 then Err(source.Shortage(MagicSection))
    else if data[..8] != format.domain then Err(InvalidEnvelopeDomain(format.domain, data[..8]))
    else if source.Readable() < 10 then Err(source.Shortage(VersionSection))
    else if FromBigEndian(data[8..10]) != format.version then
      Err(UnsupportedEnvelopeVersion(FromBigEndian(data[8..10])))
    else if source.Readable() < 18 then Err(source.Shortage(LengthSection))
    else if FromBigEndian(data[10..18]) > maximum then
      Err(BlobTooLarge(FromBigEndian(data[10..18]), maximum))
    else Ok(FromBigEndian(data[10..18]))
  }

  /** What follows a header that declares `declared` payload bytes. */
  function DecodeBody(source: Source, declared: nat): (r: Result<seq<Byte>>)
    requires HEADER_LEN <= source.Readable()
    ensures r.Ok? ==> |r.value| == declared
  {
    var data, end := source.data, HEADER_LEN + declared;
    if source.Readable() < end then Err(source.Shortage(PayloadSection))
    else if source.Readable() < end + CHECKSUM_LEN then Err(source.Shortage(ChecksumSection))
    else if source.Readable() > end + CHECKSUM_LEN then Err(TrailingData)
    else if source.Breaks() then Err(Io(ReadEnvelope))
    else
      var expected := data[end..end + CHECKSUM_LEN];
      var actual := ChecksumBytes(Checksum(data[..end]));
      if expected != actual then Err(ChecksumMismatch(expected, actual))
      else Ok(data[HEADER_LEN..end])
  }

  /** What a reader without address-space limits answers. */
  function Decode(format: BlobFormat, source: Source, maximum: nat): Result<seq<Byte>> {
    match DecodeHeader(format, source, maximum)
    case Err(error) => Err(error)
    case Ok(declared) => DecodeBody(source, declared)
  }

  /** The whole-payload decoder also refuses lengths that `usize` cannot address: it compares with
      `usizeLimit`, and then asks that payload, header and checksum fit below `wordMax`. */
  predicate Addressable(declared: nat, usizeLimit: nat, wordMax: nat) {
    declared <= usizeLimit && declared <= wordMax && declared + (HEADER_LEN + CHECKSUM_LEN) <= wordMax
  }

  function DecodeWithin(format: BlobFormat, source: Source, maximum: nat, usizeLimit: nat, wordMax: nat)
    : Result<seq<Byte>>
  {
    match DecodeHeader(format, source, maximum)
    case Err(error) => Err(error)
    case Ok(declared) =>
      if !Addressable(declared, usizeLimit, wordMax) then Err(InvalidPayloadLength(declared))
      else DecodeBody(source, declared)
  }

  /** The answer of the validator: the payload's length instead of the payload. */
  function LengthOf(decoded: Result<seq<Byte>>): Result<nat> {
    match decoded
    case Ok(payload) => Ok(|payload|)
    case Err(error) => Err(error)
  }

  function File(data: seq<Byte>): Source {
    Source(data, None)
  }

  lemma HeaderFields(format: BlobFormat, size: nat)
    requires format.Valid() && size <= U64_MAX
    ensures var header := Header(format, size);
            && header[..8] == format.domain
            && FromBigEndian(header[8..10]) == format.version
            && FromBigEndian(header[10..18]) == size
  {
    var header := Header(format, size);
    assert header[8..10] == BigEndian(format.version, 2);
    assert header[10..18] == BigEndian(size, 8);
    assert format.version < Capacity(2);
    EightBytesHoldU64();
    DecodesWhatItEncodes(format.version, 2);
    DecodesWhatItEncodes(size, 8);
  }

  /** Checked header bytes are the header that would have been written. */
  lemma HeaderIsDetermined(format: BlobFormat, source: Source, maximum: nat)
    requires format.Valid() && DecodeHeader(format, source, maximum).Ok?
    ensures var declared := DecodeHeader(format, source, maximum).value;
            declared <= U64_MAX && source.data[..HEADER_LEN] == Header(format, declared)
  {
    var data, declared := source.data, DecodeHeader(format, source, maximum).value;
    EncodesWhatItDecodes(data[8..10]);
    EncodesWhatItDecodes(data[10..18]);
    EightBytesHoldU64();
    assert data[..HEADER_LEN] == data[..8] + data[8..10] + data[10..18];
  }

  /** A file decodes to `payload` exactly when it is the encoding of `payload`, and `payload` is within
      the bound: decoding inverts encoding, and nothing but an encoding is ever accepted. */
  lemma DecodesExactlyTheEncoding(format: BlobFormat, data: seq<Byte>, payload: seq<Byte>, maximum: nat)
    requires format.Valid() && maximum <= U64_MAX
    ensures Decode(format, File(data), maximum) == Ok(payload)
            <==> data == Encode(format, payload) && |payload| <= maximum
  {
    if data == Encode(format, payload) && |payload| <= maximum {
      EncodingDecodes(format, payload, maximum);
    }
    if Decode(format, File(data), maximum) == Ok(payload) {
      OnlyEncodingsDecode(format, data, payload, maximum);
    }
  }

  /** A header is read back whatever follows it. */
  lemma HeaderDecodes(format: BlobFormat, size: nat, rest: seq<Byte>, maximum: nat)
    requires format.Valid() && size <= maximum <= U64_MAX
    ensures DecodeHeader(format, File(Header(format, size) + rest), maximum) == Ok(size)
  {
    HeaderFields(format, size);
    HeaderSlices(Header(format, size), rest);
  }

  /** A body of the right length is accepted exactly when its checksum is the right one. */
  lemma BodyDecodes(covered: seq<Byte>, sum: seq<Byte>)
    requires HEADER_LEN <= |covered| && |sum| == CHECKSUM_LEN
    ensures var right := ChecksumBytes(Checksum(covered));
            DecodeBody(File(covered + sum), |covered| - HEADER_LEN)
            == if sum == right then Ok(covered[HEADER_LEN..]) else Err(ChecksumMismatch(sum, right))
  {
    var data, end := covered + sum, |covered|;
    assert data[..end] == covered && data[end..end + CHECKSUM_LEN] == sum;
    assert data[HEADER_LEN..end] == covered[HEADER_LEN..];
  }

  lemma EncodingDecodes(format: BlobFormat, payload: seq<Byte>, maximum: nat)
    requires format.Valid() && |payload| <= maximum <= U64_MAX
    ensures Decode(format, File(Encode(format, payload)), maximum) == Ok(payload)
  {
    var header := Header(format, |payload|);
    var covered := header + payload;
    HeaderDecodes(format, |payload|, payload + ChecksumBytes(Checksum(covered)), maximum);
    assert Encode(format, payload) == header + (payload + ChecksumBytes(Checksum(covered)));
    BodyDecodes(covered, ChecksumBytes(Checksum(covered)));
    assert covered[HEADER_LEN..] == payload;
  }

  lemma OnlyChecksummedBodiesDecode(data: seq<Byte>, declared: nat)
    requires HEADER_LEN <= |data| && DecodeBody(File(data), declared).Ok?
    ensures var end := HEADER_LEN + declared;
            && |data| == end + CHECKSUM_LEN
            && DecodeBody(File(data), declared).value == data[HEADER_LEN..end]
            && data == data[..end] + ChecksumBytes(Checksum(data[..end]))
  {
    var end := HEADER_LEN + declared;
    assert data == data[..end] + data[end..end + CHECKSUM_LEN];
  }

  lemma OnlyEncodingsDecode(format: BlobFormat, data: seq<Byte>, payload: seq<Byte>, maximum: nat)
    requires format.Valid() && Decode(format, File(data), maximum) == Ok(payload)
    ensures data == Encode(format, payload) && |payload| <= maximum
  {
    HeaderIsDetermined(format, File(data), maximum);
    OnlyChecksummedBodiesDecode(data, |payload|);
    assert data[..HEADER_LEN + |payload|] == Header(format, |payload|) + payload;
  }

  /** With a maximum that `validate_maximum` accepts, on a machine whose `usize` is 64 bits wide, the
      address-space checks never fire: the two decoders are the same function. */
  lemma LimitsNeverBiteOn64Bits(format: BlobFormat, source: Source, maximum: nat)
    requires maximum <= U64_MAX && ValidateMaximum(maximum).Accepted?
    ensures DecodeWithin(format, source, maximum, U64_MAX, U64_MAX) == Decode(format, source, maximum)
  {
  }

  /** On any machine, the whole-payload decoder differs from the validator exactly on files with an
      acceptable header whose length cannot be addressed. */
  lemma LimitsBiteExactlyWhen(format: BlobFormat, source: Source, maximum: nat, usizeLimit: nat, wordMax: nat)
    ensures DecodeWithin(format, source, maximum, usizeLimit, wordMax) != Decode(format, source, maximum)
            <==> var header := DecodeHeader(format, source, maximum);
                 header.Ok? && !Addressable(header.value, usizeLimit, wordMax)
  {
    var header := DecodeHeader(format, source, maximum);
    if header.Ok? && !Addressable(header.value, usizeLimit, wordMax) {
      assert DecodeBody(source, header.value) != Err(InvalidPayloadLength(header.value));
    }
  }

  /** Two envelopes of one length that agree outside one position agree there too. */
  lemma EnvelopesNeverDifferInOneByte(format: BlobFormat, payload: seq<Byte>, other: seq<Byte>, at: nat, b: Byte)
    requires |format.domain| == DOMAIN_TAG_LEN && |payload| == |other|
    requires at < |Encode(format, payload)| && Encode(format, payload)[at := b] == Encode(format, other)
    ensures Encode(format, payload)[at] == b
  {
    var end := HEADER_LEN + |payload|;
    var covered, otherCovered := Header(format, |payload|) + payload, Header(format, |payload|) + other;
    var intact, damaged := Encode(format, payload), Encode(format, other);
    assert intact[..end] == covered && intact[end..] == ChecksumBytes(Checksum(covered));
    assert damaged[..end] == otherCovered && damaged[end..] == ChecksumBytes(Checksum(otherCovered));
    if at < end {
      assert otherCovered == covered[at := b];
      assert damaged[end..] == intact[end..];
      ChecksumBytesAreInjective(Checksum(covered), Checksum(otherCovered));
      if covered[at] != b {
        ChangingOneByteChangesTheChecksum(covered, at, b);
      }
    } else {
      assert intact[..end] == damaged[..end];
      assert otherCovered == covered;
      assert intact == intact[..end] + intact[end..] && damaged == damaged[..end] + damaged[end..];
    }
  }

  /** Changing one byte of an envelope, anywhere, leaves no envelope of the format at all. */
  lemma CorruptionIsDetected(format: BlobFormat, payload: seq<Byte>, at: nat, replacement: Byte, maximum: nat)
    requires format.Valid() && |payload| <= maximum <= U64_MAX
    requires at < |Encode(format, payload)| && Encode(format, payload)[at] != replacement
    ensures Decode(format, File(Encode(format, payload)[at := replacement]), maximum).Err?
  {
    var damaged := Encode(format, payload)[at := replacement];
    var decoded := Decode(format, File(damaged), maximum);
    if decoded.Ok? {
      OnlyEncodingsDecode(format, damaged, decoded.value, maximum);
      EnvelopesNeverDifferInOneByte(format, payload, decoded.value, at, replacement);
    }
  }

  /** A damaged domain or version is named; a damaged length reads as another length. */
  lemma DamagedHeader(format: BlobFormat, size: nat, rest: seq<Byte>, at: nat, replacement: Byte, maximum: nat)
    requires format.Valid() && size <= maximum <= U64_MAX
    requires at < HEADER_LEN && Header(format, size)[at] != replacement
    ensures var decoded := DecodeHeader(format, File(Header(format, size)[at := replacement] + rest), maximum);
            && (at < 8 ==> decoded.Err? && decoded.error.InvalidEnvelopeDomain?)
            && (8 <= at < 10 ==> decoded.Err? && decoded.error.UnsupportedEnvelopeVersion?)
            && (10 <= at && decoded.Ok? ==> decoded.value != size)
            && (10 <= at && decoded.Err? ==> decoded.error.BlobTooLarge?)
  {
    var header := Header(format, size);
    var damaged := header[at := replacement];
    HeaderFields(format, size);
    HeaderSlices(damaged, rest);
    if at < 8 {
      assert damaged[..8][at] != header[..8][at];
    } else if at < 10 {
      assert damaged[..8] == header[..8];
      FieldChanges(header[8..10], damaged[8..10], at - 8);
    } else {
      assert damaged[..8] == header[..8] && damaged[8..10] == header[8..10];
      FieldChanges(header[10..18], damaged[10..18], at - 10);
    }
  }

  lemma HeaderSlices(header: seq<Byte>, rest: seq<Byte>)
    requires |header| == HEADER_LEN
    ensures var data := header + rest;
            data[..8] == header[..8] && data[8..10] == header[8..10] && data[10..18] == header[10..18]
  {
  }

  /** Which error a damaged domain, version or length gives. */
  lemma HeaderCorruptionIsReported(format: BlobFormat, payload: seq<Byte>, at: nat, replacement: Byte, maximum: nat)
    requires format.Valid() && |payload| <= maximum <= U64_MAX
    requires at < HEADER_LEN && Encode(format, payload)[at] != replacement
    ensures var decoded := Decode(format, File(Encode(format, payload)[at := replacement]), maximum);
            && decoded.Err?
            && (at < 8 ==> decoded.error.InvalidEnvelopeDomain?)
            && (8 <= at < 10 ==> decoded.error.UnsupportedEnvelopeVersion?)
            && (10 <= at ==>
                  decoded.error.BlobTooLarge? || decoded.error.TruncatedEnvelope? || decoded.error == TrailingData)
  {
    var header, file := Header(format, |payload|), Encode(format, payload);
    assert file[..HEADER_LEN] == header;
    assert file[at := replacement] == header[at := replacement] + file[HEADER_LEN..];
    DamagedHeader(format, |payload|, file[HEADER_LEN..], at, replacement, maximum);
    var damaged := file[at := replacement];
    var decoded := DecodeHeader(format, File(damaged), maximum);
    if decoded.Ok? {
      WrongLengthIsReported(damaged, decoded.value);
    }
  }

  lemma WrongLengthIsReported(data: seq<Byte>, declared: nat)
    requires HEADER_LEN <= |data| && |data| != HEADER_LEN + declared + CHECKSUM_LEN
    ensures var decoded := DecodeBody(File(data), declared);
            decoded.Err? && (decoded.error.TruncatedEnvelope? || decoded.error == TrailingData)
  {
  }

  lemma FieldChanges(before: seq<Byte>, after: seq<Byte>, at: nat)
    requires |before| == |after| && at < |before| && before[at] != after[at]
    ensures FromBigEndian(before) != FromBigEndian(after)
  {
    EncodesWhatItDecodes(before);
    EncodesWhatItDecodes(after);
  }

  /** A damaged payload or checksum gives a checksum mismatch. */
  lemma BodyCorruptionIsReported(format: BlobFormat, payload: seq<Byte>, at: nat, replacement: Byte, maximum: nat)
    requires format.Valid() && |payload| <= maximum <= U64_MAX
    requires HEADER_LEN <= at < |Encode(format, payload)| && Encode(format, payload)[at] != replacement
    ensures var decoded := Decode(format, File(Encode(format, payload)[at := replacement]), maximum);
            decoded.Err? && decoded.error.ChecksumMismatch?
  {
    var header, end := Header(format, |payload|), HEADER_LEN + |payload|;
    var damaged := Encode(format, payload)[at := replacement];
    CorruptionIsDetected(format, payload, at, replacement, maximum);
    assert damaged == header + damaged[HEADER_LEN..];
    HeaderDecodes(format, |payload|, damaged[HEADER_LEN..], maximum);
    assert damaged == damaged[..end] + damaged[end..];
    BodyDecodes(damaged[..end], damaged[end..]);
  }

  /** No envelope is a proper prefix of another: truncation and trailing bytes are both refused. */
  lemma NoEnvelopeExtendsAnother(format: BlobFormat, data: seq<Byte>, extra: seq<Byte>, maximum: nat)
    requires format.Valid() && maximum <= U64_MAX && extra != []
    ensures Decode(format, File(data), maximum).Err? || Decode(format, File(data + extra), maximum).Err?
  {
    var longer := data + extra;
    var first, second := Decode(format, File(data), maximum), Decode(format, File(longer), maximum);
    if first.Ok? {
      assert longer[..8] == data[..8] && longer[8..10] == data[8..10] && longer[10..18] == data[10..18];
    }
  }

  // ---------------------------------------------------------------- byte by byte

  /** The four checksum bytes are the word's bits in groups of eight, the highest first. */
  lemma ChecksumByteByByte(checksum: bv32)
    ensures var bytes := ChecksumBytes(checksum);
            && bytes[0] == Number(((checksum >> 24) & 0xFF) as bv8)
            && bytes[1] == Number(((checksum >> 16) & 0xFF) as bv8)
            && bytes[2] == Number(((checksum >> 8) & 0xFF) as bv8)
            && bytes[3] == Number((checksum & 0xFF) as bv8)
  {
    var one, two, three := checksum >> 8, checksum >> 16, checksum >> 24;
    ShiftsAdd(checksum);
    assert WordBytes(checksum, 4) == WordBytes(one, 3) + [Number(LowByte(checksum))];
    assert WordBytes(one, 3) == WordBytes(two, 2) + [Number(LowByte(one))];
    assert WordBytes(two, 2) == WordBytes(three, 1) + [Number(LowByte(two))];
    assert WordBytes(three, 1) == WordBytes(three >> 8, 0) + [Number(LowByte(three))];
  }

  lemma ShiftsAdd(word: bv32)
    ensures word >> 8 >> 8 == word >> 16 && word >> 16 >> 8 == word >> 24
  {
  }

  lemma HeaderByteByByte(format: BlobFormat, size: nat)
    requires format.Valid()
    ensures var header := Header(format, size);
            && |header| == 18 && header[..8] == format.domain && header[8] == 0 && header[9] == 1
            && header[10] == size / 0x100_0000_0000_0000 % 256 && header[11] == size / 0x1_0000_0000_0000 % 256
            && header[12] == size / 0x100_0000_0000 % 256 && header[13] == size / 0x1_0000_0000 % 256
            && header[14] == size / 0x100_0000 % 256 && header[15] == size / 0x1_0000 % 256
            && header[16] == size / 0x100 % 256 && header[17] == size % 256
  {
    CapacitiesAre();
    BigEndianDigit(format.version, 2, 0);
    BigEndianDigit(format.version, 2, 1);
    EightBytesOf(size);
    var header := Header(format, size);
    assert header[8..10] == BigEndian(format.version, 2) && header[10..18] == BigEndian(size, 8);
    assert header[8] == header[8..10][0] && header[9] == header[8..10][1];
    forall i | 0 <= i < 8 ensures header[10 + i] == BigEndian(size, 8)[i] {
      assert header[10 + i] == header[10..18][i];
    }
  }

  /** The table of FORMAT.md, byte by byte, for a payload of `n` bytes. */
  lemma EncodingByteByByte(format: BlobFormat, payload: seq<Byte>)
    requires format.Valid()
    ensures var file, n := Encode(format, payload), |payload|;
            && |file| == 18 + n + 4 && file[..8] == format.domain && file[8] == 0 && file[9] == 1
            && file[10] == n / 0x100_0000_0000_0000 % 256 && file[11] == n / 0x1_0000_0000_0000 % 256
            && file[12] == n / 0x100_0000_0000 % 256 && file[13] == n / 0x1_0000_0000 % 256
            && file[14] == n / 0x100_0000 % 256 && file[15] == n / 0x1_0000 % 256
            && file[16] == n / 0x100 % 256 && file[17] == n % 256
            && file[18..18 + n] == payload
    ensures var file, n := Encode(format, payload), |payload|;
            var sum := Checksum(file[..18 + n]);
            && file[18 + n] == Number(((sum >> 24) & 0xFF) as bv8)
            && file[19 + n] == Number(((sum >> 16) & 0xFF) as bv8)
            && file[20 + n] == Number(((sum >> 8) & 0xFF) as bv8)
            && file[21 + n] == Number((sum & 0xFF) as bv8)
  {
    var file, n, header := Encode(format, payload), |payload|, Header(format, |payload|);
    HeaderByteByByte(format, n);
    assert file[..18] == header && file[..18 + n] == header + payload;
    forall i | 0 <= i < 18 ensures file[i] == header[i] {
      assert file[i] == file[..18][i];
    }
    assert file[..8] == header[..8];
    var sum := Checksum(header + payload);
    ChecksumByteByByte(sum);
    assert file[18 + n..] == ChecksumBytes(sum);
    forall i | 0 <= i < 4 ensures file[18 + n + i] == ChecksumBytes(sum)[i] {
      assert file[18 + n + i] == file[18 + n..][i];
    }
  }

  /** The length that bytes 10 to 17 declare. */
  function DeclaredLength(data: seq<Byte>): nat
    requires |data| >= 18
  {
    0x100_0000_0000_0000 * (data[10] as nat) + 0x1_0000_0000_0000 * (data[11] as nat)
    + 0x100_0000_0000 * (data[12] as nat) + 0x1_0000_0000 * (data[13] as nat)
    + 0x100_0000 * (data[14] as nat) + 0x1_0000 * (data[15] as nat) + 0x100 * (data[16] as nat) + data[17]
  }

  lemma HeaderIsRead(format: BlobFormat, data: seq<Byte>, maximum: nat)
    requires format.Valid()
    ensures DecodeHeader(format, File(data), maximum)
            == if |data| < 8 then Err(TruncatedEnvelope(MagicSection))
               else if data[..8] != format.domain then Err(InvalidEnvelopeDomain(format.domain, data[..8]))
               else if |data| < 10 then Err(TruncatedEnvelope(VersionSection))
               else if data[8] != 0 || data[9] != 1 then
                 Err(UnsupportedEnvelopeVersion(256 * (data[8] as nat) + data[9]))
               else if |data| < 18 then Err(TruncatedEnvelope(LengthSection))
               else if DeclaredLength(data) > maximum then Err(BlobTooLarge(DeclaredLength(data), maximum))
               else Ok(DeclaredLength(data))
  {
    if |data| >= 10 {
      TwoBytesSpell(data[8..10]);
    }
    if |data| >= 18 {
      EightBytesSpell(data[10..18]);
    }
  }

  /** What each file is answered, with the first thing that is wrong with it. */
  lemma DecodingCaseByCase(format: BlobFormat, data: seq<Byte>, maximum: nat)
    requires format.Valid()
    ensures var answer, size := Decode(format, File(data), maximum), |data|;
            if size < 8 then answer == Err(TruncatedEnvelope(MagicSection))
            else if data[..8] != format.domain then answer == Err(InvalidEnvelopeDomain(format.domain, data[..8]))
            else if size < 10 then answer == Err(TruncatedEnvelope(VersionSection))
            else if data[8] != 0 || data[9] != 1 then
              answer == Err(UnsupportedEnvelopeVersion(256 * (data[8] as nat) + data[9]))
            else if size < 18 then answer == Err(TruncatedEnvelope(LengthSection))
            else
              var n := DeclaredLength(data);
              if n > maximum then answer == Err(BlobTooLarge(n, maximum))
              else if size < 18 + n then answer == Err(TruncatedEnvelope(PayloadSection))
              else if size < 22 + n then answer == Err(TruncatedEnvelope(ChecksumSection))
              else if size > 22 + n then answer == Err(TrailingData)
              else
                var stored, right := data[18 + n..], ChecksumBytes(Checksum(data[..18 + n]));
                answer == if stored == right then Ok(data[18..18 + n]) else Err(ChecksumMismatch(stored, right))
  {
    HeaderIsRead(format, data, maximum);
    if |data| >= 18 && |data| == 22 + DeclaredLength(data) {
      var n := DeclaredLength(data);
      assert data[18 + n..18 + n + 4] == data[18 + n..];
    }
  }
}
