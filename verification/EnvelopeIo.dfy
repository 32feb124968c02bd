/** The readers and writers of `src/format.rs`: loops over a byte source, a message channel and a
    writer, proved against the functions of Envelope.dfy. */
module EnvelopeIo {
  import opened Bytes
  import opened Config
  import opened Crc32c
  import opened Envelope
  import opened Results

  /** An opened file or any other `Read`: a source and a position in it. */
  class Reader {
    const source: Source
    var position: nat

    ghost predicate Valid()
      reads this
    {
      position <= source.Readable()
    }

    constructor (source: Source)
      ensures Valid() && this.source == source && position == 0
    {
      this.source := source;
      position := 0;
    }

    /** `read_section`: exactly `count` bytes, or the error that names `section`. */
    method ReadSection(count: nat, section: Section) returns (r: Result<seq<Byte>>)
      requires Valid()
      modifies this
      ensures Valid()
      ensures r == if old(position) + count <= source.Readable()
                   then Ok(source.data[old(position)..old(position) + count])
                   else Err(source.Shortage(section))
      ensures r.Ok? ==> position == old(position) + count
    {
      if position + count <= source.Readable() {
        r := Ok(source.data[position..position + count]);
        position := position + count;
      } else {
        position := source.Readable();
        r := Err(source.Shortage(section));
      }
    }

    /** One more read of one byte, which has to find the end: `TrailingData` if it finds a byte. */
    method ExpectEnd() returns (r: Result<()>)
      requires Valid()
      modifies this
      ensures Valid()
      ensures r == if old(position) < source.Readable() then Err(TrailingData)
                   else if source.Breaks() then Err(Io(ReadEnvelope)) else Ok(())
    {
      if position < source.Readable() {
        position := position + 1;
        r := Err(TrailingData);
      } else {
        r := if source.Breaks() then Err(Io(ReadEnvelope)) else Ok(());
      }
    }

    /** A seek; behind the readable bytes there is nothing to tell positions apart. */
    method Seek(target: nat)
      modifies this
      ensures Valid() && position == if target <= source.Readable() then target else source.Readable()
    {
      position := if target <= source.Readable() then target else source.Readable();
    }
  }

  /** `envelope_header`. */
  method EnvelopeHeader(format: BlobFormat, size: nat, maximum: nat) returns (r: Result<seq<Byte>>)
    requires |format.domain| == DOMAIN_TAG_LEN
    ensures r == if size > maximum then Err(BlobTooLarge(size, maximum)) else Ok(Header(format, size))
  {
    if size > maximum {
      return Err(BlobTooLarge(size, maximum));
    }
    var header := format.domain;
    header := header + BigEndian(format.version, 2);
    header := header + BigEndian(size, 8);
    return Ok(header);
  }

  /** `envelope_parts`: header and checksum are computed without joining header and payload. */
  method EnvelopeParts(format: BlobFormat, payload: seq<Byte>, maximum: nat)
    returns (r: Result<(seq<Byte>, seq<Byte>)>)
    requires |format.domain| == DOMAIN_TAG_LEN
    ensures |payload| > maximum ==> r == Err(BlobTooLarge(|payload|, maximum))
    ensures |payload| <= maximum ==> r.Ok? && r.value.0 + payload + r.value.1 == Encode(format, payload)
    ensures r.Ok? ==> r.value.0 == Header(format, |payload|)
  {
    var header := EnvelopeHeader(format, |payload|, maximum);
    if header.Err? {
      return Err(header.error);
    }
    var checksum := Append(Checksum(header.value), payload);
    AppendIsIncremental(0, header.value, payload);
    return Ok((header.value, ChecksumBytes(checksum)));
  }

  method EncodeEnvelope(format: BlobFormat, payload: seq<Byte>, maximum: nat) returns (r: Result<seq<Byte>>)
    requires |format.domain| == DOMAIN_TAG_LEN
    ensures r == if |payload| > maximum then Err(BlobTooLarge(|payload|, maximum)) else Ok(Encode(format, payload))
  {
    var parts := EnvelopeParts(format, payload, maximum);
    if parts.Err? {
      return Err(parts.error);
    }
    return Ok(parts.value.0 + payload + parts.value.1);
  }

  /** The header checks that both readers begin with, in their order; `r.Ok?` carries the header's
      bytes and the payload length they declare. */
  method ReadHeader(format: BlobFormat, reader: Reader, maximum: nat) returns (r: Result<(seq<Byte>, nat)>)
    requires reader.Valid() && reader.position == 0
    modifies reader
    ensures reader.Valid()
    ensures var expected := DecodeHeader(format, reader.source, maximum);
            if expected.Ok? then
              r == Ok((reader.source.data[..HEADER_LEN], expected.value)) && reader.position == HEADER_LEN
            else r == Err(expected.error)
  {
    var magic := reader.ReadSection(DOMAIN_TAG_LEN, MagicSection);
    if magic.Err? {
      return Err(magic.error);
    }
    if magic.value != format.domain {
      return Err(InvalidEnvelopeDomain(format.domain, magic.value));
    }
    var versionBytes := reader.ReadSection(2, VersionSection);
    if versionBytes.Err? {
      return Err(versionBytes.error);
    }
    var version := FromBigEndian(versionBytes.value);
    if version != format.version {
      return Err(UnsupportedEnvelopeVersion(version));
    }
    var length := reader.ReadSection(8, LengthSection);
    if length.Err? {
      return Err(length.error);
    }
    var declared := FromBigEndian(length.value);
    if declared > maximum {
      return Err(BlobTooLarge(declared, maximum));
    }
    assert reader.source.data[..HEADER_LEN] == magic.value + versionBytes.value + length.value;
    return Ok((magic.value + versionBytes.value + length.value, declared));
  }

  /** `decode_reader_with_usize_limit`: the whole payload at once. `wordMax` is `usize::MAX`. */
  method DecodeReaderWithUsizeLimit(
      format: BlobFormat, reader: Reader, maximum: nat, usizeLimit: nat, wordMax: nat)
    returns (r: Result<seq<Byte>>)
    requires format.Valid() && maximum <= U64_MAX
    requires reader.Valid() && reader.position == 0
    modifies reader
    ensures reader.Valid()
    ensures r == DecodeWithin(format, reader.source, maximum, usizeLimit, wordMax)
  {
    var header := ReadHeader(format, reader, maximum);
    if header.Err? {
      return Err(header.error);
    }
    var declared := header.value.1;
    if declared > usizeLimit {
      return Err(InvalidPayloadLength(declared));
    }
    if declared > wordMax || declared + (HEADER_LEN + CHECKSUM_LEN) > wordMax {
      return Err(InvalidPayloadLength(declared));
    }
    r := DecodeRest(format, reader, maximum, declared);
  }

  /** What follows the header: the payload, its checksum, and the end. */
  method DecodeRest(format: BlobFormat, reader: Reader, maximum: nat, declared: nat) returns (r: Result<seq<Byte>>)
    requires format.Valid() && reader.Valid() && reader.position == HEADER_LEN
    requires DecodeHeader(format, reader.source, maximum) == Ok(declared)
    modifies reader
    ensures reader.Valid()
    ensures r == DecodeBody(reader.source, declared)
  {
    var payload := reader.ReadSection(declared, PayloadSection);
    if payload.Err? {
      return Err(payload.error);
    }
    var checksum := reader.ReadSection(CHECKSUM_LEN, ChecksumSection);
    if checksum.Err? {
      return Err(checksum.error);
    }
    var end := reader.ExpectEnd();
    if end.Err? {
      return Err(end.error);
    }
    var actual := ChecksumFields(format, declared, payload.value, reader.source, maximum);
    if checksum.value != ChecksumBytes(actual) {
      return Err(ChecksumMismatch(checksum.value, ChecksumBytes(actual)));
    }
    return Ok(payload.value);
  }

  /** The checksum of the fields that a header has shown, one by one: that of all bytes read so far. */
  method ChecksumFields(
      format: BlobFormat, declared: nat, payload: seq<Byte>, ghost source: Source, ghost maximum: nat)
    returns (actual: bv32)
    requires format.Valid() && DecodeHeader(format, source, maximum) == Ok(declared)
    requires HEADER_LEN + declared <= |source.data| && payload == source.data[HEADER_LEN..HEADER_LEN + declared]
    ensures actual == Checksum(source.data[..HEADER_LEN + declared])
  {
    ChecksumOfFields(format, source, maximum, payload);
    actual := Checksum(format.domain);
    actual := Append(actual, BigEndian(format.version, 2));
    actual := Append(actual, BigEndian(declared, 8));
    actual := Append(actual, payload);
  }

  /** The decoder checksums the fields it expects, one by one, which is checksumming the bytes it read. */
  lemma ChecksumOfFields(format: BlobFormat, source: Source, maximum: nat, payload: seq<Byte>)
    requires format.Valid() && DecodeHeader(format, source, maximum).Ok?
    requires var declared := DecodeHeader(format, source, maximum).value;
             HEADER_LEN + declared <= |source.data| && payload == source.data[HEADER_LEN..HEADER_LEN + declared]
    ensures var declared := DecodeHeader(format, source, maximum).value;
            Append(Append(Append(Checksum(format.domain), BigEndian(format.version, 2)),
                          BigEndian(declared, 8)), payload)
            == Checksum(source.data[..HEADER_LEN + declared])
  {
    var declared := DecodeHeader(format, source, maximum).value;
    HeaderIsDetermined(format, source, maximum);
    AppendIsIncremental(0, format.domain, BigEndian(format.version, 2));
    AppendIsIncremental(0, format.domain + BigEndian(format.version, 2), BigEndian(declared, 8));
    AppendIsIncremental(0, Header(format, declared), payload);
    assert source.data[..HEADER_LEN + declared] == Header(format, declared) + payload;
  }

  /** `decode_reader`: the limit is the machine's own. */
  method DecodeReader(format: BlobFormat, reader: Reader, maximum: nat, wordMax: nat)
    returns (r: Result<seq<Byte>>)
    requires format.Valid() && maximum <= U64_MAX
    requires reader.Valid() && reader.position == 0
    modifies reader
    ensures reader.Valid()
    ensures r == DecodeWithin(format, reader.source, maximum, wordMax, wordMax)
  {
    r := DecodeReaderWithUsizeLimit(format, reader, maximum, wordMax, wordMax);
  }

  lemma ChecksumGrows(data: seq<Byte>, from: nat, count: nat)
    requires from + count <= |data|
    ensures Append(Checksum(data[..from]), data[from..from + count]) == Checksum(data[..from + count])
  {
    AppendIsIncremental(0, data[..from], data[from..from + count]);
    assert data[..from + count] == data[..from] + data[from..from + count];
  }

  /** The validator's loop: the payload goes by in chunks and only the checksum is kept. */
  method ChecksumPayload(reader: Reader, declared: nat, header: bv32) returns (r: Result<bv32>)
    requires reader.Valid() && reader.position == HEADER_LEN
    requires header == Checksum(reader.source.data[..HEADER_LEN])
    modifies reader
    ensures reader.Valid()
    ensures var end := HEADER_LEN + declared;
            if end <= reader.source.Readable()
            then r == Ok(Checksum(reader.source.data[..end])) && reader.position == end
            else r == Err(reader.source.Shortage(PayloadSection))
  {
    ghost var data := reader.source.data;
    var actual := header;
    var remaining := declared;
    while remaining != 0
      invariant reader.Valid() && 0 <= remaining <= declared
      invariant reader.position == HEADER_LEN + declared - remaining
      invariant actual == Checksum(data[..reader.position])
    {
      var requested := if remaining < STREAM_CHUNK_SIZE then remaining else STREAM_CHUNK_SIZE;
      ghost var before := reader.position;
      var buffer := reader.ReadSection(requested, PayloadSection);
      if buffer.Err? {
        return Err(buffer.error);
      }
      ChecksumGrows(data, before, requested);
      actual := Append(actual, buffer.value);
      remaining := remaining - requested;
    }
    return Ok(actual);
  }

  /** `validate_envelope_reader`: the same checks in constant memory. */
  method ValidateEnvelopeReader(format: BlobFormat, reader: Reader, maximum: nat) returns (r: Result<nat>)
    requires format.Valid() && maximum <= U64_MAX
    requires reader.Valid() && reader.position == 0
    modifies reader
    ensures reader.Valid()
    ensures r == LengthOf(Decode(format, reader.source, maximum))
  {
    var header := ReadHeader(format, reader, maximum);
    if header.Err? {
      return Err(header.error);
    }
    var declared := header.value.1;
    r := ValidateRest(reader, declared, Checksum(header.value.0));
  }

  method ValidateRest(reader: Reader, declared: nat, start: bv32) returns (r: Result<nat>)
    requires reader.Valid() && reader.position == HEADER_LEN && HEADER_LEN <= |reader.source.data|
    requires start == Checksum(reader.source.data[..HEADER_LEN])
    modifies reader
    ensures reader.Valid()
    ensures r == LengthOf(DecodeBody(reader.source, declared))
  {
    var actual := ChecksumPayload(reader, declared, start);
    if actual.Err? {
      return Err(actual.error);
    }
    var checksum := reader.ReadSection(CHECKSUM_LEN, ChecksumSection);
    if checksum.Err? {
      return Err(checksum.error);
    }
    var end := reader.ExpectEnd();
    if end.Err? {
      return Err(end.error);
    }
    if checksum.value != ChecksumBytes(actual.value) {
      return Err(ChecksumMismatch(checksum.value, ChecksumBytes(actual.value)));
    }
    return Ok(declared);
  }

  /** A message of a streaming save. */
  datatype SaveMessage = Chunk(bytes: seq<Byte>) | Complete

  /** The bytes of the chunks before the first completion marker, in order. */
  function PayloadOf(messages: seq<SaveMessage>): seq<Byte> {
    if messages == [] || messages[0].Complete? then [] else messages[0].bytes + PayloadOf(messages[1..])
  }

  /** What a streaming save of `declared` bytes has to answer to a sequence of messages after which
      the sender is gone. It depends on the chunks only through their bytes. */
  function StreamResult(declared: nat, messages: seq<SaveMessage>): Result<seq<Byte>> {
    var payload := PayloadOf(messages);
    if |payload| > declared then Err(InputHasTrailingData(declared))
    else if Complete !in messages then Err(StreamCancelled)
    else if |payload| < declared then Err(InputEndedEarly(declared, |payload|))
    else Ok(payload)
  }

  /** A `Write` that may fail at any write, leaving any part of that write behind. */
  class Writer {
    var written: seq<Byte>
    ghost var failed: bool

    constructor ()
      ensures written == [] && !failed
    {
      written := [];
      failed := false;
    }

    method WriteAll(bytes: seq<Byte>) returns (ok: bool)
      modifies this
      ensures ok ==> written == old(written) + bytes && failed == old(failed)
      ensures !ok ==> failed && old(written) <= written <= old(written) + bytes
    {
      ok := *;
      var kept := |bytes|;
      if !ok {
        kept := *;
        if kept < 0 || |bytes| < kept {
          kept := 0;
        }
        failed := true;
      }
      written := written + bytes[..kept];
    }
  }

  /** The messages a streaming save receives, in order; the sender is gone after the last. */
  class SaveReceiver {
    const messages: seq<SaveMessage>
    var taken: nat

    ghost predicate Valid()
      reads this
    {
      taken <= |messages|
    }

    constructor (messages: seq<SaveMessage>)
      ensures Valid() && this.messages == messages && taken == 0
    {
      this.messages := messages;
      taken := 0;
    }

    method Receive() returns (message: Option<SaveMessage>)
      requires Valid()
      modifies this
      ensures Valid()
      ensures message == if old(taken) < |messages| then Some(messages[old(taken)]) else None
      ensures taken == if message.Some? then old(taken) + 1 else old(taken)
    {
      if taken < |messages| {
        message := Some(messages[taken]);
        taken := taken + 1;
      } else {
        message := None;
      }
    }
  }

  lemma {:induction false} PayloadOfFirst(messages: seq<SaveMessage>, count: nat)
    requires count < |messages| && Complete !in messages[..count]
    ensures PayloadOf(messages[..count]) <= PayloadOf(messages)
    ensures messages[count].Chunk? ==>
              PayloadOf(messages[..count + 1]) == PayloadOf(messages[..count]) + messages[count].bytes
              && PayloadOf(messages[..count + 1]) <= PayloadOf(messages)
    ensures messages[count].Complete? ==> PayloadOf(messages) == PayloadOf(messages[..count])
  {
    if count == 0 {
    } else {
      assert messages[0] in messages[..count];
      assert messages[1..][..count - 1] == messages[..count][1..];
      assert messages[1..][..count] == messages[..count + 1][1..];
      PayloadOfFirst(messages[1..], count - 1);
    }
  }

  /** The first `count` messages are chunks, and they are what has been written after the header. */
  ghost predicate Absorbed(
      messages: seq<SaveMessage>, count: nat, header: seq<Byte>, written: seq<Byte>, checksum: bv32)
  {
    && count <= |messages|
    && Complete !in messages[..count]
    && written == header + PayloadOf(messages[..count])
    && checksum == Checksum(written)
  }

  lemma AbsorbChunk(messages: seq<SaveMessage>, count: nat, header: seq<Byte>, written: seq<Byte>, checksum: bv32)
    requires Absorbed(messages, count, header, written, checksum)
    requires count < |messages| && messages[count].Chunk?
    ensures var bytes := messages[count].bytes;
            && Absorbed(messages, count + 1, header, written + bytes, Append(checksum, bytes))
            && |written + bytes| <= |header| + |PayloadOf(messages)|
  {
    PayloadOfFirst(messages, count);
    AppendIsIncremental(0, written, messages[count].bytes);
    assert messages[..count + 1] == messages[..count] + [messages[count]];
  }

  lemma AbsorbAll(messages: seq<SaveMessage>, count: nat, header: seq<Byte>, written: seq<Byte>, checksum: bv32)
    requires Absorbed(messages, count, header, written, checksum)
    requires count == |messages| || messages[count].Complete?
    ensures written == header + PayloadOf(messages)
    ensures Complete in messages <==> count < |messages|
  {
    if count < |messages| {
      PayloadOfFirst(messages, count);
    } else {
      assert messages[..count] == messages;
    }
  }

  /** `write_stream_envelope`: header, chunks as they come, and the checksum at the completion marker. */
  method WriteStreamEnvelope(
      format: BlobFormat, maximum: nat, writer: Writer, declared: nat, chunks: SaveReceiver)
    returns (r: Result<()>)
    requires |format.domain| == DOMAIN_TAG_LEN && declared <= U64_MAX
    requires chunks.Valid() && chunks.taken == 0 && writer.written == [] && !writer.failed
    modifies writer, chunks
    ensures declared > maximum ==> r == Err(BlobTooLarge(declared, maximum))
    ensures declared <= maximum && writer.failed ==> r == Err(Io(WriteEnvelope))
    ensures declared <= maximum && !writer.failed ==>
              var expected := StreamResult(declared, chunks.messages);
              && r == (if expected.Ok? then Ok(()) else Err(expected.error))
              && (r.Ok? ==> writer.written == Encode(format, expected.value))
  {
    var header := EnvelopeHeader(format, declared, maximum);
    if header.Err? {
      return Err(header.error);
    }
    var ok := writer.WriteAll(header.value);
    if !ok {
      return Err(Io(WriteEnvelope));
    }
    var checksum := Checksum(header.value);
    var written := 0;
    ghost var messages := chunks.messages;
    assert writer.written == header.value;
    while true
      invariant chunks.Valid() && !writer.failed
      invariant Absorbed(messages, chunks.taken, header.value, writer.written, checksum)
      invariant written == |writer.written| - HEADER_LEN <= declared
      decreases |messages| - chunks.taken
    {
      ghost var count := chunks.taken;
      var message := chunks.Receive();
      if message.None? {
        AbsorbAll(messages, count, header.value, writer.written, checksum);
        return Err(StreamCancelled);
      }
      match message.value {
        case Chunk(chunk) =>
          AbsorbChunk(messages, count, header.value, writer.written, checksum);
          if written + |chunk| > U64_MAX || written + |chunk| > declared {
            return Err(InputHasTrailingData(declared));
          }
          ok := writer.WriteAll(chunk);
          if !ok {
            return Err(Io(WriteEnvelope));
          }
          checksum := Append(checksum, chunk);
          written := written + |chunk|;
        case Complete =>
          AbsorbAll(messages, count, header.value, writer.written, checksum);
          if written != declared {
            return Err(InputEndedEarly(declared, written));
          }
          ok := writer.WriteAll(ChecksumBytes(checksum));
          if !ok {
            return Err(Io(WriteEnvelope));
          }
          return Ok(());
      }
    }
  }

  /** The receiving end of a streaming load: it takes chunks until it goes away. */
  class ChunkSender {
    var sent: seq<seq<Byte>>     // what has gone through the channel
    ghost var gone: bool

    constructor ()
      ensures sent == [] && !gone
    {
      sent := [];
      gone := false;
    }

    /** `send`: fails once the receiver is gone. */
    method Send(chunk: seq<Byte>) returns (ok: bool)
      modifies this
      ensures sent == if ok then old(sent) + [chunk] else old(sent)
      ensures gone == (old(gone) || !ok)
    {
      ok := *;
      if ok {
        sent := sent + [chunk];
      } else {
        gone := true;
      }
    }
  }

  function Joined(chunks: seq<seq<Byte>>): seq<Byte> {
    if chunks == [] then [] else Joined(chunks[..|chunks| - 1]) + chunks[|chunks| - 1]
  }

  /** The chunks' bytes one after the other, in the order in which the chunks were sent. */
  lemma {:induction false} JoinedKeepsOrder(chunks: seq<seq<Byte>>, first: seq<Byte>, last: seq<Byte>)
    ensures Joined([]) == []
    ensures Joined(chunks + [last]) == Joined(chunks) + last
    ensures Joined([first] + chunks) == first + Joined(chunks)
  {
    assert (chunks + [last])[..|chunks|] == chunks;
    if chunks == [] {
      assert [first] + chunks == [first];
      assert [first][..0] == [];
    } else {
      var front, end := chunks[..|chunks| - 1], chunks[|chunks| - 1];
      JoinedKeepsOrder(front, first, last);
      assert ([first] + chunks)[..|chunks|] == [first] + front;
    }
  }

  /** Every chunk holds something, and no more than the stream's chunk size. */
  ghost predicate Bounded(chunks: seq<seq<Byte>>) {
    forall i | 0 <= i < |chunks| :: 0 < |chunks[i]| <= STREAM_CHUNK_SIZE
  }

  /** What was sent is the beginning of the `declared` bytes behind the header. */
  ghost predicate Streamed(source: Source, sent: seq<seq<Byte>>, declared: nat) {
    var count := |Joined(sent)|;
    && count <= declared
    && (count > 0 ==> HEADER_LEN + count <= source.Readable())
    && (count > 0 ==> Joined(sent) == source.data[HEADER_LEN..HEADER_LEN + count])
  }

  lemma StreamGrows(source: Source, sent: seq<seq<Byte>>, chunk: seq<Byte>, declared: nat)
    requires Streamed(source, sent, declared) && |chunk| > 0 && |Joined(sent)| + |chunk| <= declared
    requires var from := HEADER_LEN + |Joined(sent)|;
             from + |chunk| <= source.Readable() && chunk == source.data[from..from + |chunk|]
    ensures Streamed(source, sent + [chunk], declared)
    ensures Joined(sent + [chunk]) == Joined(sent) + chunk
  {
    assert (sent + [chunk])[..|sent|] == sent;
  }

  /** The second pass: seek behind the header and send `count` bytes in chunks. */
  method SendPayload(file: Reader, count: nat, chunks: ChunkSender) returns (r: Result<()>)
    requires chunks.sent == [] && !chunks.gone
    modifies file, chunks
    ensures Bounded(chunks.sent) && Streamed(file.source, chunks.sent, count)
    ensures forall i | 0 <= i < |chunks.sent| :: 1 <= |chunks.sent[i]| <= 65536
    ensures r.Ok? ==> |Joined(chunks.sent)| == count && !chunks.gone
    ensures r.Err? ==> (r.error == StreamCancelled && chunks.gone)
                       || (r.error == file.source.Shortage(PayloadSection)
                           && file.source.Readable() < HEADER_LEN + count)
  {
    file.Seek(HEADER_LEN);
    var remaining := count;
    while remaining != 0
      invariant file.Valid() && 0 <= remaining <= count
      invariant Bounded(chunks.sent) && Streamed(file.source, chunks.sent, count)
      invariant |Joined(chunks.sent)| == count - remaining && !chunks.gone
      invariant file.position == if HEADER_LEN <= file.source.Readable()
                                 then HEADER_LEN + count - remaining else file.source.Readable()
      invariant remaining == count || HEADER_LEN <= file.source.Readable()
    {
      var requested := if remaining < STREAM_CHUNK_SIZE then remaining else STREAM_CHUNK_SIZE;
      var chunk := file.ReadSection(requested, PayloadSection);
      if chunk.Err? {
        return Err(chunk.error);
      }
      remaining := remaining - requested;
      StreamGrows(file.source, chunks.sent, chunk.value, count);
      var ok := chunks.Send(chunk.value);
      if !ok {
        return Err(StreamCancelled);
      }
    }
    return Ok(());
  }

  /** `load_blob_into_sender` once the file is open: the first pass validates the whole envelope, the
      second sends the payload in chunks. `again` is the file as the second pass finds it, and
      `acknowledged` tells whether the reader confirmed the end. */
  method LoadBlobIntoSender(
      format: BlobFormat, maximum: nat, file: Reader, again: Reader, chunks: ChunkSender, acknowledged: bool)
    returns (r: Result<nat>)
    requires format.Valid() && maximum <= U64_MAX
    requires file.Valid() && file.position == 0 && file != again && chunks.sent == [] && !chunks.gone
    modifies file, again, chunks
    ensures var decoded := Decode(format, file.source, maximum);
            && (decoded.Err? ==> r == Err(decoded.error) && chunks.sent == [])
            && (decoded.Ok? ==>
                  && Bounded(chunks.sent)
                  && Streamed(again.source, chunks.sent, |decoded.value|)
                  && (r.Ok? ==> r.value == |decoded.value| == |Joined(chunks.sent)| && acknowledged)
                  && (r.Err? ==> (r.error == StreamCancelled && (chunks.gone || !acknowledged))
                                 || (r.error == again.source.Shortage(PayloadSection)
                                     && again.source.Readable() < HEADER_LEN + |decoded.value|)))
    ensures var decoded := Decode(format, file.source, maximum);
            decoded.Ok? && again.source == file.source ==>
              && Joined(chunks.sent) <= decoded.value
              && r == (if acknowledged && !chunks.gone then Ok(|decoded.value|) else Err(StreamCancelled))
              && (r.Ok? ==> Joined(chunks.sent) == decoded.value)
  {
    var metadata := ValidateEnvelopeReader(format, file, maximum);
    if metadata.Err? {
      return Err(metadata.error);
    }
    var sent := SendPayload(again, metadata.value, chunks);
    if sent.Err? {
      return Err(sent.error);
    }
    if !acknowledged {
      return Err(StreamCancelled);
    }
    return Ok(metadata.value);
  }
}
