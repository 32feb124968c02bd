/** The caller's halves of the two streaming protocols (`src/blocking.rs`). */
module Blocking {
  import opened Bytes
  import opened Config
  import opened Envelope
  import opened EnvelopeIo
  import opened Operations
  import opened Results

  /** A caller's `Read`: it may return fewer bytes than asked for, and may fail somewhere. */
  class InputReader {
    const source: Source
    var position: nat

    ghost predicate Valid()
      reads this
    {
      position <= source.Readable()
    }

    constructor (source: Source)
      ensures Valid() && this.source == source && position == 0
    {
      this.source := source;
      position := 0;
    }

    /** `read`: some bytes, none at the end, or the failure. */
    method Read(count: nat) returns (r: Result<seq<Byte>>)
      requires Valid() && 0 < count
      modifies this
      ensures Valid()
      ensures r.Ok? ==> |r.value| <= count && position == old(position) + |r.value|
                        && r.value == source.data[old(position)..position]
      ensures r.Ok? && r.value == [] ==> old(position) == |source.data| && !source.Breaks()
      ensures r.Err? ==> r.error == InputIo && source.Breaks() && old(position) == position == source.Readable()
      ensures r.Ok? && old(position) == source.Readable() ==> r.value == []
    {
      if position == source.Readable() {
        return if source.Breaks() then Err(InputIo) else Ok([]);
      }
      var available := source.Readable() - position;
      var most := if count < available then count else available;
      var some: nat := *;
      if some < 1 || most < some {
        some := most;
      }
      r := Ok(source.data[position..position + some]);
      position := position + some;
    }
  }

  /** The channel to the worker of a streaming save. */
  class SaveSender {
    var sent: seq<SaveMessage>
    var gone: bool               // the worker has dropped its end

    constructor ()
      ensures sent == [] && !gone
    {
      sent := [];
      gone := false;
    }

    method Send(message: SaveMessage) returns (ok: bool)
      modifies this
      ensures ok ==> sent == old(sent) + [message] && gone == old(gone)
      ensures !ok ==> sent == old(sent) && gone
    {
      ok := *;
      if ok {
        sent := sent + [message];
      } else {
        gone := true;
      }
    }
  }

  lemma {:induction false} PayloadGrows(messages: seq<SaveMessage>, bytes: seq<Byte>)
    requires Complete !in messages
    ensures PayloadOf(messages + [Chunk(bytes)]) == PayloadOf(messages) + bytes
    ensures PayloadOf(messages + [Complete]) == PayloadOf(messages)
  {
    if messages == [] {
    } else {
      assert messages[0] in messages;
      PayloadGrows(messages[1..], bytes);
      assert (messages + [Chunk(bytes)])[1..] == messages[1..] + [Chunk(bytes)];
      assert (messages + [Complete])[1..] == messages[1..] + [Complete];
    }
  }

  /** The source yields exactly the declared number of bytes, and then its end. */
  predicate Whole(source: Source, declared: nat) {
    |source.data| == declared && !source.Breaks()
  }

  /** What has been sent so far: the bytes read so far, cut into chunks of bounded size. */
  ghost predicate Forwarded(source: Source, sent: seq<SaveMessage>, read: nat) {
    && read <= source.Readable()
    && Complete !in sent
    && PayloadOf(sent) == source.data[..read]
    && forall i | 0 <= i < |sent| :: 0 < |sent[i].bytes| <= STREAM_CHUNK_SIZE
  }

  lemma ForwardedGrows(source: Source, sent: seq<SaveMessage>, read: nat, bytes: seq<Byte>)
    requires Forwarded(source, sent, read) && 0 < |bytes| <= STREAM_CHUNK_SIZE
    requires read + |bytes| <= source.Readable() && bytes == source.data[read..read + |bytes|]
    ensures Forwarded(source, sent + [Chunk(bytes)], read + |bytes|)
  {
    PayloadGrows(sent, bytes);
  }

  /** `save_from`, once the stream is started; `result` is what the worker will answer. Whatever the
      pattern of short reads, the completion marker is sent exactly if the source is whole and the worker
      stays; so the worker sees the whole payload or a cancelled stream, and never a length error. */
  method SaveFrom(reader: InputReader, declared: nat, chunks: SaveSender, result: Result<()>) returns (r: Result<()>)
    requires reader.Valid() && reader.position == 0
    requires chunks.sent == [] && !chunks.gone
    modifies reader, chunks
    ensures Complete in chunks.sent <==> Whole(reader.source, declared) && !chunks.gone
    ensures StreamResult(declared, chunks.sent)
            == if Complete in chunks.sent then Ok(reader.source.data) else Err(StreamCancelled)
    ensures PayloadOf(chunks.sent) <= reader.source.data
    ensures chunks.gone || Whole(reader.source, declared) ==> r == result
    ensures !chunks.gone && reader.source.Readable() > declared ==> r == Err(InputHasTrailingData(declared))
    ensures !chunks.gone && !reader.source.Breaks() && |reader.source.data| < declared ==>
              r == Err(InputEndedEarly(declared, |reader.source.data|))
    ensures !chunks.gone && reader.source.Breaks() && reader.source.Readable() <= declared ==> r == Err(InputIo)
  {
    var read := 0;
    while read < declared
      invariant reader.Valid() && reader.position == read <= declared
      invariant Forwarded(reader.source, chunks.sent, read) && !chunks.gone
      decreases declared - read
    {
      var requested := if declared - read < STREAM_CHUNK_SIZE then declared - read else STREAM_CHUNK_SIZE;
      var chunk := reader.Read(requested);
      if chunk.Err? {
        return Err(InputIo);
      }
      if chunk.value == [] {
        return Err(InputEndedEarly(declared, read));
      }
      ForwardedGrows(reader.source, chunks.sent, read, chunk.value);
      read := read + |chunk.value|;
      var ok := chunks.Send(Chunk(chunk.value));
      if !ok {
        return result;
      }
    }
    var trailing := reader.Read(1);
    if trailing.Err? {
      return Err(InputIo);
    }
    if trailing.value != [] {
      return Err(InputHasTrailingData(declared));
    }
    PayloadGrows(chunks.sent, []);
    assert reader.source.data[..declared] == reader.source.data;
    var ok := chunks.Send(Complete);
    assert ok ==> chunks.sent[|chunks.sent| - 1] == Complete;
    return result;
  }

  /** Seen from the file: unless the source is whole and the worker stays, a streaming save leaves the
      file alone; and otherwise it is a save of the source's bytes. */
  lemma StreamingSaveEndToEnd(
      store: Store, source: Source, declared: nat, sent: seq<SaveMessage>, before: Option<Blob>, after: Option<Blob>,
      answer: Result<()>)
    requires StreamResult(declared, sent) == if Complete in sent then Ok(source.data) else Err(StreamCancelled)
    requires Complete in sent ==> Whole(source, declared)
    requires StreamReplaces(store, declared, sent, before, after, answer)
    ensures Complete !in sent ==> after == before && answer.Err?
    ensures Complete in sent && declared <= store.maximum ==> Replaces(store, source.data, before, after, answer)
    ensures answer.Err? ==> !answer.error.InputEndedEarly? && !answer.error.InputHasTrailingData?
  {
  }

  /** `load_into`, once the stream is started: `chunks` is what the worker sends, and `result` what it
      answers. Every chunk is written in order; the worker is told so exactly if all were. */
  method LoadInto(chunks: seq<seq<Byte>>, writer: Writer, result: Result<Option<nat>>)
    returns (r: Result<Option<nat>>, acknowledged: bool)
    requires writer.written == [] && !writer.failed
    modifies writer
    ensures acknowledged <==> !writer.failed
    ensures r == if writer.failed then Err(OutputIo) else result
    ensures !writer.failed ==> writer.written == Joined(chunks)
    ensures writer.written <= Joined(chunks)
  {
    var taken := 0;
    assert chunks[..0] == [];
    while taken < |chunks|
      invariant 0 <= taken <= |chunks|
      invariant writer.written == Joined(chunks[..taken]) && !writer.failed
    {
      assert chunks[..taken + 1][..taken] == chunks[..taken];
      JoinedIsPrefix(chunks, taken + 1);
      var ok := writer.WriteAll(chunks[taken]);
      if !ok {
        PrefixOfPrefix(writer.written, Joined(chunks[..taken + 1]), Joined(chunks));
        return Err(OutputIo), false;
      }
      taken := taken + 1;
    }
    assert chunks[..taken] == chunks;
    return result, true;
  }

  /** What `load_into` has to do with the file: nothing of a file that is absent or not valid is written, a
      valid one is written from the beginning of its payload on, and a success means all of it. The caller
      learns what is wrong with the file, unless its own writer or a call of the worker failed. */
  ghost predicate Delivers(
      store: Store, file: Option<Blob>, written: seq<Byte>, failed: bool, r: Result<Option<nat>>)
  {
    var excused := failed || (r.Err? && (r.error.Io? || r.error.OutputIo?));
    match file
    case None => written == [] && (r == Ok(None) || excused)
    case Some(data) =>
      match Decode(store.format, File(data), store.maximum)
      case Err(error) => written == [] && (r == Err(error) || excused)
      case Ok(payload) =>
        && written <= payload
        && (r.Ok? ==> r == Ok(Some(|payload|)) && written == payload)
        && (r.Err? ==> excused || r.error.StreamCancelled?)
  }

  /** Seen from the writer: what the worker may send and answer, and what `LoadInto` makes of it, deliver
      the file. */
  lemma StreamingLoadEndToEnd(
      store: Store, file: Option<Blob>, chunks: seq<seq<Byte>>, result: Result<Option<nat>>, written: seq<Byte>,
      failed: bool, r: Result<Option<nat>>)
    requires LoadStreamAnswer(store, file, result, Joined(chunks))
    requires written <= Joined(chunks) && (!failed ==> written == Joined(chunks))
    requires r == if failed then Err(OutputIo) else result
    ensures Delivers(store, file, written, failed, r)
  {
    if file.Some? {
      var decoded := Decode(store.format, File(file.value), store.maximum);
      if decoded.Ok? {
        PrefixOfPrefix(written, Joined(chunks), decoded.value);
      }
    }
  }

  lemma PrefixOfPrefix<T>(a: seq<T>, b: seq<T>, c: seq<T>)
    requires a <= b <= c
    ensures a <= c
  {
  }

  lemma {:induction false} JoinedIsPrefix(chunks: seq<seq<Byte>>, count: nat)
    requires count <= |chunks|
    ensures Joined(chunks[..count]) <= Joined(chunks)
  {
    if count == |chunks| {
      assert chunks[..count] == chunks;
    } else {
      var rest := chunks[..|chunks| - 1];
      assert rest[..count] == chunks[..count];
      JoinedIsPrefix(rest, count);
      assert Joined(chunks) == Joined(rest) + chunks[|chunks| - 1];
    }
  }
}
