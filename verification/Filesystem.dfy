/** The operations on a store's directory, step by step: the Windows backend of `src/filesystem/mod.rs`,
    and the loads of `src/format.rs`. What is proved of every state of the directory holds wherever the
    process is stopped, and whatever operations on other keys do in between. */
module Filesystem {
  import opened Bytes
  import opened Config
  import opened Directories
  import opened Envelope
  import opened EnvelopeIo
  import opened FileNames
  import opened Operations
  import opened Results

  function PathOf(store: Store, key: KeyHash): string {
    CanonicalName(Hex(key.bytes), store.format.suffix)
  }

  function FootprintOf(store: Store, key: KeyHash): Footprint {
    OfKey(Hex(key.bytes), store.format.suffix)
  }

  /** A directory on which an operation on the key may work. What is under the canonical name is never a
      file that was written and not flushed. */
  ghost predicate Ready(store: Store, key: KeyHash, dir: Directory)
    reads dir
  {
    store.Valid() && key.Valid() && dir.footprint == FootprintOf(store, key) && dir.Valid()
    && PathOf(store, key) !in dir.unflushed
  }

  /** In every state since `from`, the file at `path` is one of the two. */
  ghost predicate Always(trace: seq<Moment>, from: nat, path: string, one: Option<Blob>, other: Option<Blob>) {
    forall t | from <= t < |trace| :: Look(trace[t].files, path) == one || Look(trace[t].files, path) == other
  }

  /** The names an operation works with. */
  lemma NamesOf(store: Store, key: KeyHash, kind: StagingKind, identifier: string)
    requires store.Valid() && key.Valid() && Identifier(identifier)
    ensures FileStem(PathOf(store, key)) == Hex(key.bytes)
    ensures var staging := StagingName(Hex(key.bytes), store.format.suffix, kind, identifier);
            Within(FootprintOf(store, key), staging) && staging != PathOf(store, key)
    ensures var quarantine := QuarantineName(Hex(key.bytes), store.format.suffix, identifier);
            Within(FootprintOf(store, key), quarantine) && quarantine != PathOf(store, key)
  {
    var hash, suffix := Hex(key.bytes), store.format.suffix;
    StemOfCanonicalName(hash, suffix);
    StagingNamesAreOfTheKey(hash, suffix, kind, identifier);
    QuarantineNamesAreOfTheKey(hash, suffix, identifier);
    NamesAreApart(hash, suffix, kind, identifier, hash, suffix, identifier);
  }

  // ---------------------------------------------------------------- save

  /** How writing a staging file ends: it exists already, or writing failed, or it is complete. */
  datatype Staged = Exists | Broken(error: Error) | Filled

  /** The name is the operation's own, and not the canonical one. */
  predicate Spare(store: Store, key: KeyHash, name: string) {
    Within(FootprintOf(store, key), name) && name != PathOf(store, key)
  }

  /** The key's other names, but perhaps one, are what they were: no staging file has come or gone. */
  ghost predicate SparesKept(store: Store, key: KeyHash, before: Listing, after: Listing, but: Option<string>) {
    forall name | Spare(store, key, name) && Some(name) != but :: Look(after, name) == Look(before, name)
  }

  /** The canonical file is `file`, and has been since `from`. */
  ghost predicate Untouched(store: Store, key: KeyHash, dir: Directory, from: nat, file: Option<Blob>)
    reads dir
  {
    Look(dir.files, PathOf(store, key)) == file && Always(dir.trace, from, PathOf(store, key), file, file)
  }

  /** The end of staging: what was written is in the file, and flushed if all went well. */
  method FinishStaging(
      store: Store, dir: Directory, key: KeyHash, name: string, bytes: Blob, written: bool, ghost from: nat,
      ghost file: Option<Blob>)
    returns (ok: bool)
    requires Ready(store, key, dir) && Spare(store, key, name) && Untouched(store, key, dir, from, file)
    modifies dir
    ensures Ready(store, key, dir) && old(dir.trace) <= dir.trace && Untouched(store, key, dir, from, file)
    ensures Look(dir.files, name) == Some(bytes) && (ok ==> written)
    ensures dir.faults == old(dir.faults) + if ok then 0 else 1
    ensures dir.unsynced == old(dir.unsynced) && (ok ==> name !in dir.unflushed)
    ensures SparesKept(store, key, old(dir.files), dir.files, Some(name))
  {
    dir.Fill(name, bytes);
    if written {
      ok := dir.FlushFile(name);
    } else {
      dir.Blame();
      ok := false;
    }
  }

  method StartStaging(
      store: Store, dir: Directory, key: KeyHash, name: string, ghost from: nat, ghost file: Option<Blob>)
    returns (created: Access)
    requires Ready(store, key, dir) && Spare(store, key, name) && Untouched(store, key, dir, from, file)
    modifies dir
    ensures Ready(store, key, dir) && old(dir.trace) <= dir.trace && Untouched(store, key, dir, from, file)
    ensures !created.Missing? && dir.faults == old(dir.faults) + if created.Failed? then 1 else 0
    ensures dir.unsynced == old(dir.unsynced)
    ensures if created.Done? then
              Look(old(dir.files), name) == None && SparesKept(store, key, old(dir.files), dir.files, Some(name))
            else SparesKept(store, key, old(dir.files), dir.files, None)
  {
    created := dir.CreateNew(name);
  }

  /** `create_windows_staging`. */
  method CreateStaging(
      store: Store, dir: Directory, key: KeyHash, name: string, header: Blob, payload: Blob, checksum: Blob,
      ghost from: nat, ghost file: Option<Blob>)
    returns (r: Staged)
    requires Ready(store, key, dir) && Spare(store, key, name) && Untouched(store, key, dir, from, file)
    modifies dir
    ensures Ready(store, key, dir) && old(dir.trace) <= dir.trace && Untouched(store, key, dir, from, file)
    ensures r.Filled? ==> Look(dir.files, name) == Some(header + payload + checksum)
    ensures r.Broken? ==> r.error == Io(OpenStaging) || r.error == Io(WriteEnvelope)
    ensures dir.faults == old(dir.faults) + if r.Broken? then 1 else 0
    ensures dir.unsynced == old(dir.unsynced) && (r.Filled? ==> name !in dir.unflushed)
    ensures r.Exists? ==> SparesKept(store, key, old(dir.files), dir.files, None)
    ensures r.Filled? ==>
              Look(old(dir.files), name) == None && SparesKept(store, key, old(dir.files), dir.files, Some(name))
  {
    var created := StartStaging(store, dir, key, name, from, file);
    if created.Occupied? {
      return Exists;
    }
    if !created.Done? {
      return Broken(Io(OpenStaging));
    }
    var writer := new Writer();
    var ok := writer.WriteAll(header);
    if ok {
      ok := writer.WriteAll(payload);
    }
    if ok {
      ok := writer.WriteAll(checksum);
    }
    assert ok ==> writer.written == header + payload + checksum;
    var flushed := FinishStaging(store, dir, key, name, writer.written, ok, from, file);
    return if flushed then Filled else Broken(Io(WriteEnvelope));
  }

  /** What was written stays in the staging file when a stream ends badly. */
  method Abandon(
      store: Store, dir: Directory, key: KeyHash, name: string, bytes: Blob, failed: bool, ghost from: nat,
      ghost file: Option<Blob>)
    requires Ready(store, key, dir) && Spare(store, key, name) && Untouched(store, key, dir, from, file)
    modifies dir
    ensures Ready(store, key, dir) && old(dir.trace) <= dir.trace && Untouched(store, key, dir, from, file)
    ensures dir.faults == old(dir.faults) + if failed then 1 else 0
    ensures dir.unsynced == old(dir.unsynced)
    ensures SparesKept(store, key, old(dir.files), dir.files, Some(name))
  {
    dir.Fill(name, bytes);
    if failed {
      dir.Blame();
    }
  }

  /** `create_windows_streaming_staging`. */
  method CreateStreamingStaging(
      store: Store, dir: Directory, key: KeyHash, name: string, declared: nat, chunks: SaveReceiver,
      ghost from: nat, ghost file: Option<Blob>)
    returns (r: Staged)
    requires Ready(store, key, dir) && Spare(store, key, name) && Untouched(store, key, dir, from, file)
    requires declared <= store.maximum && chunks.Valid() && chunks.taken == 0
    modifies dir, chunks
    ensures Ready(store, key, dir) && old(dir.trace) <= dir.trace && Untouched(store, key, dir, from, file)
    ensures r.Exists? ==> chunks.Valid() && chunks.taken == 0
    ensures r.Filled? ==>
              var expected := StreamResult(declared, chunks.messages);
              expected.Ok? && Look(dir.files, name) == Some(Encode(store.format, expected.value))
    ensures r.Broken? ==>
              var expected := StreamResult(declared, chunks.messages);
              || ((r.error == Io(OpenStaging) || r.error == Io(WriteEnvelope)) && old(dir.faults) < dir.faults)
              || (expected.Err? && r.error == expected.error)
    ensures old(dir.faults) <= dir.faults
    ensures dir.unsynced == old(dir.unsynced) && (r.Filled? ==> name !in dir.unflushed)
    ensures r.Exists? ==> SparesKept(store, key, old(dir.files), dir.files, None)
    ensures r.Filled? || (r.Broken? && dir.faults == old(dir.faults)) ==>
              Look(old(dir.files), name) == None && SparesKept(store, key, old(dir.files), dir.files, Some(name))
  {
    var created := StartStaging(store, dir, key, name, from, file);
    if created.Occupied? {
      return Exists;
    }
    if !created.Done? {
      return Broken(Io(OpenStaging));
    }
    var writer := new Writer();
    var result := WriteStreamEnvelope(store.format, store.maximum, writer, declared, chunks);
    if result.Err? {
      Abandon(store, dir, key, name, writer.written, result.error == Io(WriteEnvelope), from, file);
      return Broken(result.error);
    }
    var flushed := FinishStaging(store, dir, key, name, writer.written, true, from, file);
    return if flushed then Filled else Broken(Io(WriteEnvelope));
  }

  /** The commit of a save: the rename, then the directory's sync. */
  method Commit(
      store: Store, dir: Directory, key: KeyHash, staging: string, ghost from: nat, ghost file: Option<Blob>,
      ghost replacement: Blob)
    returns (r: Result<()>)
    requires Ready(store, key, dir) && Spare(store, key, staging) && Untouched(store, key, dir, from, file)
    requires Look(dir.files, staging) == Some(replacement) && staging !in dir.unflushed
    modifies dir
    ensures Ready(store, key, dir) && old(dir.trace) <= dir.trace
    ensures r.Ok? ==> !dir.unsynced && Look(dir.files, staging) == None
    ensures SparesKept(store, key, old(dir.files), dir.files, Some(staging))
    ensures Always(dir.trace, from, PathOf(store, key), file, Some(replacement))
    ensures match r
            case Ok(_) => Look(dir.files, PathOf(store, key)) == Some(replacement)
            case Err(AtomicCommit) =>
              || Look(dir.files, PathOf(store, key)) == file
              || Look(dir.files, PathOf(store, key)) == Some(replacement)
            case Err(error) =>
              error == Io(SyncNamespaceDirectory) && Look(dir.files, PathOf(store, key)) == Some(replacement)
    ensures old(dir.faults) <= dir.faults && (r.Err? ==> old(dir.faults) < dir.faults)
  {
    var moved := MoveIn(store, dir, key, staging, from, file, replacement, false);
    if moved.Occupied? {
      moved := MoveIn(store, dir, key, staging, from, file, replacement, true);
    }
    if !moved.Done? {
      return Err(AtomicCommit);
    }
    var ok := dir.SyncDirectory();
    return if ok then Ok(()) else Err(Io(SyncNamespaceDirectory));
  }

  /** One rename of the staging file to the canonical name. */
  method MoveIn(
      store: Store, dir: Directory, key: KeyHash, staging: string, ghost from: nat, ghost file: Option<Blob>,
      ghost replacement: Blob, replace: bool)
    returns (moved: Access)
    requires Ready(store, key, dir) && Spare(store, key, staging) && Untouched(store, key, dir, from, file)
    requires Look(dir.files, staging) == Some(replacement) && staging !in dir.unflushed
    modifies dir
    ensures Ready(store, key, dir) && old(dir.trace) <= dir.trace && staging !in dir.unflushed
    ensures SparesKept(store, key, old(dir.files), dir.files, Some(staging))
    ensures Always(dir.trace, from, PathOf(store, key), file, Some(replacement))
    ensures moved.Done? ==>
              Look(dir.files, PathOf(store, key)) == Some(replacement) && Look(dir.files, staging) == None
    ensures moved.Failed? ==>
              Look(dir.files, PathOf(store, key)) == file || Look(dir.files, PathOf(store, key)) == Some(replacement)
    ensures moved.Occupied? ==>
              !replace && Look(dir.files, staging) == Some(replacement) && Untouched(store, key, dir, from, file)
    ensures !moved.Missing? && dir.faults == old(dir.faults) + if moved.Failed? then 1 else 0
  {
    ghost var happened;
    moved, happened := dir.MoveFile(staging, PathOf(store, key), replace);
  }

  /** `save_blob`. */
  method SaveBlob(store: Store, dir: Directory, entropy: Entropy, key: KeyHash, payload: Blob)
    returns (r: Result<()>)
    requires Ready(store, key, dir) && entropy.Valid()
    modifies dir, entropy
    ensures Ready(store, key, dir) && entropy.Valid() && old(dir.trace) <= dir.trace
    ensures Replaces(store, payload, Look(old(dir.files), PathOf(store, key)), Look(dir.files, PathOf(store, key)), r)
    ensures Always(dir.trace, |old(dir.trace)|, PathOf(store, key), Look(old(dir.files), PathOf(store, key)),
                   Some(Encode(store.format, payload)))
    ensures |payload| > store.maximum ==> dir.trace == old(dir.trace)
    ensures r.Err? && Hindered(r.error) ==> old(dir.faults) < dir.faults || entropy.supply == []
    ensures r.Ok? ==> !dir.unsynced
    ensures dir.faults == old(dir.faults) ==> SparesKept(store, key, old(dir.files), dir.files, None)
  {
    var parts := EnvelopeParts(store.format, payload, store.maximum);
    if parts.Err? {
      return Err(parts.error);
    }
    ghost var file, from := Look(dir.files, PathOf(store, key)), |dir.trace|;
    var hash := FileStem(PathOf(store, key));
    while true
      invariant Ready(store, key, dir) && entropy.Valid() && old(dir.trace) <= dir.trace
      invariant Untouched(store, key, dir, from, file) && old(dir.faults) <= dir.faults
      invariant SparesKept(store, key, old(dir.files), dir.files, None)
      decreases |entropy.supply|
    {
      var random := entropy.Take();
      var identifier := RandomIdentifier(random);
      if identifier.Err? {
        return Err(identifier.error);
      }
      NamesOf(store, key, SaveStaging, identifier.value);
      var staging := StagingName(hash, store.format.suffix, SaveStaging, identifier.value);
      var answer := TrySave(store, dir, key, staging, parts.value.0, payload, parts.value.1, from, file);
      if answer.Some? {
        return answer.value;
      }
    }
  }

  /** One attempt to save by way of this staging name; no answer if the name is taken. */
  method TrySave(
      store: Store, dir: Directory, key: KeyHash, staging: string, header: Blob, payload: Blob, checksum: Blob,
      ghost from: nat, ghost file: Option<Blob>)
    returns (answer: Option<Result<()>>)
    requires Ready(store, key, dir) && Spare(store, key, staging) && Untouched(store, key, dir, from, file)
    requires |payload| <= store.maximum && header + payload + checksum == Encode(store.format, payload)
    modifies dir
    ensures Ready(store, key, dir) && old(dir.trace) <= dir.trace
    ensures answer.None? ==> Untouched(store, key, dir, from, file)
    ensures answer.Some? ==>
              && Replaces(store, payload, file, Look(dir.files, PathOf(store, key)), answer.value)
              && Always(dir.trace, from, PathOf(store, key), file, Some(Encode(store.format, payload)))
              && (answer.value.Err? && Hindered(answer.value.error) ==> old(dir.faults) < dir.faults)
    ensures old(dir.faults) <= dir.faults
    ensures answer.Some? && answer.value.Ok? ==> !dir.unsynced
    ensures answer.None? || dir.faults == old(dir.faults) ==>
              SparesKept(store, key, old(dir.files), dir.files, None)
  {
    var staged := CreateStaging(store, dir, key, staging, header, payload, checksum, from, file);
    match staged {
      case Exists => return None;
      case Broken(error) => return Some(Err(error));
      case Filled =>
        var r := Commit(store, dir, key, staging, from, file, Encode(store.format, payload));
        return Some(r);
    }
  }

  /** The file a streaming save makes, if its messages make one; otherwise the file that was there. */
  function Streamable(store: Store, file: Option<Blob>, declared: nat, messages: seq<SaveMessage>): Option<Blob>
    requires |store.format.domain| == DOMAIN_TAG_LEN
  {
    match StreamResult(declared, messages)
    case Ok(payload) => Some(Encode(store.format, payload))
    case Err(_) => file
  }

  /** `save_blob_from_receiver`: the header is checked first; then the chunks go to a staging file, which
      is deleted if that fails. */
  method SaveBlobFromReceiver(
      store: Store, dir: Directory, entropy: Entropy, key: KeyHash, declared: nat, chunks: SaveReceiver)
    returns (r: Result<()>)
    requires Ready(store, key, dir) && entropy.Valid() && chunks.Valid() && chunks.taken == 0
    modifies dir, entropy, chunks
    ensures Ready(store, key, dir) && entropy.Valid() && old(dir.trace) <= dir.trace
    ensures var file := Look(old(dir.files), PathOf(store, key));
            && StreamReplaces(store, declared, chunks.messages, file, Look(dir.files, PathOf(store, key)), r)
            && Always(dir.trace, |old(dir.trace)|, PathOf(store, key), file,
                      Streamable(store, file, declared, chunks.messages))
    ensures declared > store.maximum ==> dir.trace == old(dir.trace)
    ensures r.Err? && Hindered(r.error) ==> old(dir.faults) < dir.faults || entropy.supply == []
    ensures r.Ok? ==> !dir.unsynced
    ensures dir.faults == old(dir.faults) ==> SparesKept(store, key, old(dir.files), dir.files, None)
  {
    var header := EnvelopeHeader(store.format, declared, store.maximum);
    if header.Err? {
      return Err(header.error);
    }
    ghost var file, from := Look(dir.files, PathOf(store, key)), |dir.trace|;
    var hash := FileStem(PathOf(store, key));
    while true
      invariant Ready(store, key, dir) && entropy.Valid() && old(dir.trace) <= dir.trace
      invariant chunks.Valid() && chunks.taken == 0
      invariant Untouched(store, key, dir, from, file) && old(dir.faults) <= dir.faults
      invariant SparesKept(store, key, old(dir.files), dir.files, None)
      decreases |entropy.supply|
    {
      var random := entropy.Take();
      var identifier := RandomIdentifier(random);
      if identifier.Err? {
        return Err(identifier.error);
      }
      NamesOf(store, key, SaveStaging, identifier.value);
      var staging := StagingName(hash, store.format.suffix, SaveStaging, identifier.value);
      var answer := TryStream(store, dir, key, staging, declared, chunks, from, file);
      if answer.Some? {
        return answer.value;
      }
    }
  }

  /** One attempt to save by way of this staging name; no answer if the name is taken, and then no
      message has been consumed. */
  method TryStream(
      store: Store, dir: Directory, key: KeyHash, staging: string, declared: nat, chunks: SaveReceiver,
      ghost from: nat, ghost file: Option<Blob>)
    returns (answer: Option<Result<()>>)
    requires Ready(store, key, dir) && Spare(store, key, staging) && Untouched(store, key, dir, from, file)
    requires declared <= store.maximum && chunks.Valid() && chunks.taken == 0
    modifies dir, chunks
    ensures Ready(store, key, dir) && old(dir.trace) <= dir.trace
    ensures answer.None? ==> chunks.Valid() && chunks.taken == 0 && Untouched(store, key, dir, from, file)
    ensures answer.Some? ==>
              && StreamReplaces(store, declared, chunks.messages, file, Look(dir.files, PathOf(store, key)),
                                answer.value)
              && Always(dir.trace, from, PathOf(store, key), file, Streamable(store, file, declared, chunks.messages))
              && (answer.value.Err? && Hindered(answer.value.error) ==> old(dir.faults) < dir.faults)
    ensures old(dir.faults) <= dir.faults
    ensures answer.Some? && answer.value.Ok? ==> !dir.unsynced
    ensures answer.None? || dir.faults == old(dir.faults) ==>
              SparesKept(store, key, old(dir.files), dir.files, None)
  {
    var staged := CreateStreamingStaging(store, dir, key, staging, declared, chunks, from, file);
    match staged {
      case Exists => return None;
      case Broken(error) =>
        Discard(store, dir, key, staging, from, file);
        return Some(Err(error));
      case Filled =>
        ghost var payload := StreamResult(declared, chunks.messages).value;
        var r := Commit(store, dir, key, staging, from, file, Encode(store.format, payload));
        return Some(r);
    }
  }

  /** `let _ = delete_file(&staging)`. */
  method Discard(store: Store, dir: Directory, key: KeyHash, name: string, ghost from: nat, ghost file: Option<Blob>)
    requires Ready(store, key, dir) && Spare(store, key, name) && Untouched(store, key, dir, from, file)
    modifies dir
    ensures Ready(store, key, dir) && old(dir.trace) <= dir.trace && Untouched(store, key, dir, from, file)
    ensures old(dir.faults) <= dir.faults
    ensures SparesKept(store, key, old(dir.files), dir.files, Some(name))
    ensures dir.faults == old(dir.faults) ==> Look(dir.files, name) == None
  {
    var ignored, happened := dir.DeleteFile(name);
  }

  // ---------------------------------------------------------------- clear

  /** `clear_blob`: the file is moved to a staging name, and deleted there. */
  method ClearBlob(store: Store, dir: Directory, entropy: Entropy, key: KeyHash) returns (r: Result<()>)
    requires Ready(store, key, dir) && entropy.Valid()
    modifies dir, entropy
    ensures Ready(store, key, dir) && entropy.Valid() && old(dir.trace) <= dir.trace
    ensures var file := Look(old(dir.files), PathOf(store, key));
            && Clears(file, Look(dir.files, PathOf(store, key)), r)
            && Always(dir.trace, |old(dir.trace)|, PathOf(store, key), file, None)
    ensures old(dir.faults) <= dir.faults && (r.Err? ==> old(dir.faults) < dir.faults || entropy.supply == [])
    ensures r.Ok? && !old(dir.unsynced) ==> !dir.unsynced
    ensures dir.faults == old(dir.faults) ==> SparesKept(store, key, old(dir.files), dir.files, None)
    ensures r.Ok? && Look(old(dir.files), PathOf(store, key)) == None ==> old(dir.available) < dir.available
  {
    ghost var file, from := Look(dir.files, PathOf(store, key)), |dir.trace|;
    var refreshed := dir.Refresh(PathOf(store, key));
    if refreshed.Missing? {
      r := dir.EnsureNamespaceAvailable();
      return;
    }
    if !refreshed.Done? {
      return Err(Io(RefreshClearStagingAge));
    }
    r := ClearFound(store, dir, entropy, key, from, file);
  }

  /** The loop of `clear_blob`: until a staging name is free. The file's time stamp is fresh, so that no
      clean-up takes it for stale under its staging name. */
  method ClearFound(
      store: Store, dir: Directory, entropy: Entropy, key: KeyHash, ghost from: nat, ghost file: Option<Blob>)
    returns (r: Result<()>)
    requires Ready(store, key, dir) && entropy.Valid() && Untouched(store, key, dir, from, file)
    requires file.Some? && PathOf(store, key) in dir.refreshed
    modifies dir, entropy
    ensures Ready(store, key, dir) && entropy.Valid() && old(dir.trace) <= dir.trace
    ensures Clears(file, Look(dir.files, PathOf(store, key)), r)
    ensures Always(dir.trace, from, PathOf(store, key), file, None)
    ensures old(dir.faults) <= dir.faults && (r.Err? ==> old(dir.faults) < dir.faults || entropy.supply == [])
    ensures r.Ok? && !old(dir.unsynced) ==> !dir.unsynced
    ensures dir.faults == old(dir.faults) ==> SparesKept(store, key, old(dir.files), dir.files, None)
  {
    var hash := FileStem(PathOf(store, key));
    while true
      invariant Ready(store, key, dir) && entropy.Valid() && old(dir.trace) <= dir.trace
      invariant Untouched(store, key, dir, from, file) && old(dir.faults) <= dir.faults
      invariant SparesKept(store, key, old(dir.files), dir.files, None) && dir.unsynced == old(dir.unsynced)
      decreases |entropy.supply|
    {
      var random := entropy.Take();
      var identifier := RandomIdentifier(random);
      if identifier.Err? {
        return Err(identifier.error);
      }
      NamesOf(store, key, ClearStaging, identifier.value);
      var staging := StagingName(hash, store.format.suffix, ClearStaging, identifier.value);
      var answer := TryClear(store, dir, key, staging, from, file);
      if answer.Some? {
        return answer.value;
      }
    }
  }

  /** One attempt to clear by way of this staging name; no answer if the name is taken. */
  method TryClear(
      store: Store, dir: Directory, key: KeyHash, staging: string, ghost from: nat, ghost file: Option<Blob>)
    returns (answer: Option<Result<()>>)
    requires Ready(store, key, dir) && Spare(store, key, staging) && Untouched(store, key, dir, from, file)
    modifies dir
    ensures Ready(store, key, dir) && old(dir.trace) <= dir.trace
    ensures Always(dir.trace, from, PathOf(store, key), file, None)
    ensures answer.None? ==> Untouched(store, key, dir, from, file)
    ensures answer.Some? ==> Clears(file, Look(dir.files, PathOf(store, key)), answer.value)
    ensures old(dir.faults) <= dir.faults && (answer.Some? && answer.value.Err? ==> old(dir.faults) < dir.faults)
    ensures answer.None? ==> dir.unsynced == old(dir.unsynced)
    ensures answer.Some? && answer.value.Ok? && !old(dir.unsynced) ==> !dir.unsynced
    ensures answer.None? || dir.faults == old(dir.faults) ==>
              SparesKept(store, key, old(dir.files), dir.files, None)
  {
    var moved := MoveOut(store, dir, key, staging, from, file);
    match moved {
      case Done =>
        var r := FinishClear(store, dir, key, staging, from, file);
        return Some(r);
      case Missing =>
        var r := dir.EnsureNamespaceAvailable();
        return Some(r);
      case Occupied => return None;
      case Failed => return Some(Err(Io(RemoveBlob)));
    }
  }

  /** The rename of the canonical file to a staging name. */
  method MoveOut(
      store: Store, dir: Directory, key: KeyHash, staging: string, ghost from: nat, ghost file: Option<Blob>)
    returns (moved: Access)
    requires Ready(store, key, dir) && Spare(store, key, staging) && Untouched(store, key, dir, from, file)
    modifies dir
    ensures Ready(store, key, dir) && old(dir.trace) <= dir.trace
    ensures Always(dir.trace, from, PathOf(store, key), file, None)
    ensures dir.faults == old(dir.faults) + if moved.Failed? then 1 else 0
    ensures match moved
            case Done =>
              && Look(dir.files, PathOf(store, key)) == None && Look(dir.files, staging).Some?
              && Look(old(dir.files), staging) == None
              && SparesKept(store, key, old(dir.files), dir.files, Some(staging))
            case Failed => Look(dir.files, PathOf(store, key)) == file || Look(dir.files, PathOf(store, key)) == None
            case _ =>
              && Untouched(store, key, dir, from, file) && dir.unsynced == old(dir.unsynced)
              && SparesKept(store, key, old(dir.files), dir.files, None)
              && (moved.Missing? ==> file == None)
  {
    ghost var happened;
    moved, happened := dir.MoveFile(PathOf(store, key), staging, false);
  }

  /** Once the file has left its name: the directory is synced, and the staging file deleted. */
  method FinishClear(
      store: Store, dir: Directory, key: KeyHash, staging: string, ghost from: nat, ghost file: Option<Blob>)
    returns (r: Result<()>)
    requires Ready(store, key, dir) && Spare(store, key, staging) && Look(dir.files, staging).Some?
    requires Look(dir.files, PathOf(store, key)) == None && Always(dir.trace, from, PathOf(store, key), file, None)
    modifies dir
    ensures Ready(store, key, dir) && old(dir.trace) <= dir.trace
    ensures Look(dir.files, PathOf(store, key)) == None && Always(dir.trace, from, PathOf(store, key), file, None)
    ensures r.Ok? || r.error == Io(SyncNamespaceDirectory) || r.error == Io(RemoveTemporaryFile)
    ensures dir.faults == old(dir.faults) + if r.Ok? then 0 else 1
    ensures r.Ok? ==> !dir.unsynced && Look(dir.files, staging) == None
    ensures SparesKept(store, key, old(dir.files), dir.files, Some(staging))
  {
    var synced := dir.SyncDirectory();
    if !synced {
      return Err(Io(SyncNamespaceDirectory));
    }
    var deleted, happened := dir.DeleteFile(staging);
    return if deleted.Done? then Ok(()) else Err(Io(RemoveTemporaryFile));
  }

  // ---------------------------------------------------------------- quarantine

  /** Among the key's names nothing has changed, or the file stands under a fresh quarantine name, with
      the bytes it had, and nothing else has changed. */
  ghost predicate MovedOnce(store: Store, key: KeyHash, origin: Listing, files: Listing) {
    || InsideKept(FootprintOf(store, key), origin, files)
    || exists identifier ::
         Identifier(identifier)
         && MovedTo(store, key, origin, files, QuarantineName(Hex(key.bytes), store.format.suffix, identifier))
  }

  ghost predicate MovedTo(store: Store, key: KeyHash, origin: Listing, files: Listing, name: string) {
    var path := PathOf(store, key);
    path in origin && name !in origin && InsideKept(FootprintOf(store, key), Renamed(origin, path, name), files)
  }

  ghost predicate AlwaysMovedOnce(store: Store, key: KeyHash, origin: Listing, trace: seq<Moment>, from: nat) {
    forall t | from <= t < |trace| :: MovedOnce(store, key, origin, trace[t].files)
  }

  /** `quarantine_blob`. */
  method QuarantineBlob(store: Store, dir: Directory, entropy: Entropy, key: KeyHash) returns (r: Result<string>)
    requires Ready(store, key, dir) && entropy.Valid()
    modifies dir, entropy
    ensures Ready(store, key, dir) && entropy.Valid() && old(dir.trace) <= dir.trace
    ensures Quarantines(Look(old(dir.files), PathOf(store, key)), Look(dir.files, PathOf(store, key)), r)
    ensures AlwaysMovedOnce(store, key, old(dir.files), dir.trace, |old(dir.trace)|)
    ensures r.Ok? ==>
              MovedTo(store, key, old(dir.files), dir.files,
                      QuarantineName(Hex(key.bytes), store.format.suffix, r.value))
              && !dir.unsynced
    ensures r.Err? && r.error.QuarantineNamespaceSync? ==>
              MovedTo(store, key, old(dir.files), dir.files,
                      QuarantineName(Hex(key.bytes), store.format.suffix, r.error.quarantined))
    ensures r == Err(QuarantineSourceMissing) ==> old(dir.available) < dir.available
    ensures r.Err? && Hindered(r.error) ==> old(dir.faults) < dir.faults || entropy.supply == []
  {
    ghost var origin, from := dir.files, |dir.trace|;
    var hash := FileStem(PathOf(store, key));
    while true
      invariant Ready(store, key, dir) && entropy.Valid() && old(dir.trace) <= dir.trace
      invariant InsideKept(FootprintOf(store, key), origin, dir.files)
      invariant AlwaysMovedOnce(store, key, origin, dir.trace, from)
      invariant old(dir.faults) <= dir.faults && old(dir.available) <= dir.available
      decreases |entropy.supply|
    {
      var random := entropy.Take();
      var identifier := RandomIdentifier(random);
      if identifier.Err? {
        return Err(identifier.error);
      }
      NamesOf(store, key, SaveStaging, identifier.value);
      var destination := QuarantineName(hash, store.format.suffix, identifier.value);
      var answer := TryQuarantine(store, dir, key, identifier.value, destination, origin, from);
      if answer.Some? {
        return answer.value;
      }
    }
  }

  /** One attempt to quarantine under this name; no answer if the name is taken. */
  method TryQuarantine(
      store: Store, dir: Directory, key: KeyHash, identifier: string, destination: string,
      ghost origin: Listing, ghost from: nat)
    returns (answer: Option<Result<string>>)
    requires Ready(store, key, dir) && Identifier(identifier) && Spare(store, key, destination)
    requires destination == QuarantineName(Hex(key.bytes), store.format.suffix, identifier)
    requires InsideKept(FootprintOf(store, key), origin, dir.files)
    requires AlwaysMovedOnce(store, key, origin, dir.trace, from)
    modifies dir
    ensures Ready(store, key, dir) && old(dir.trace) <= dir.trace
    ensures AlwaysMovedOnce(store, key, origin, dir.trace, from)
    ensures answer.None? ==> InsideKept(FootprintOf(store, key), origin, dir.files)
    ensures answer.Some? ==>
              Quarantines(Look(origin, PathOf(store, key)), Look(dir.files, PathOf(store, key)), answer.value)
    ensures answer.Some? && answer.value.Ok? ==>
              answer.value.value == identifier && MovedTo(store, key, origin, dir.files, destination) && !dir.unsynced
    ensures old(dir.faults) <= dir.faults && old(dir.available) <= dir.available
    ensures answer == Some(Err(QuarantineSourceMissing)) ==> old(dir.available) < dir.available
    ensures answer.Some? && answer.value.Err? && answer.value.error.QuarantineNamespaceSync? ==>
              answer.value.error.quarantined == identifier && MovedTo(store, key, origin, dir.files, destination)
    ensures answer.Some? && answer.value.Err? && Hindered(answer.value.error) ==> old(dir.faults) < dir.faults
  {
    ghost var files, length := dir.files, |dir.trace|;
    var moved, happened := dir.MoveFile(PathOf(store, key), destination, false);
    QuarantineStep(store, key, identifier, origin, from, files, length, happened, dir.trace, dir.files);
    match moved {
      case Done =>
        var synced := dir.SyncDirectory();
        return Some(if synced then Ok(identifier) else Err(QuarantineNamespaceSync(identifier)));
      case Missing =>
        var available := dir.EnsureNamespaceAvailable();
        return Some(Err(if available.Ok? then QuarantineSourceMissing else available.error));
      case Occupied => return None;
      case Failed => return Some(Err(QuarantineCommit));
    }
  }

  /** What the rename of a quarantine does to the states of the directory. */
  lemma QuarantineStep(
      store: Store, key: KeyHash, identifier: string, origin: Listing, from: nat, files: Listing, length: nat,
      happened: bool, trace: seq<Moment>, after: Listing)
    requires Identifier(identifier) && InsideKept(FootprintOf(store, key), origin, files) && length <= |trace|
    requires var name := QuarantineName(Hex(key.bytes), store.format.suffix, identifier);
             && Within(FootprintOf(store, key), name) && Within(FootprintOf(store, key), PathOf(store, key))
             && (happened ==> PathOf(store, key) in files && name !in files)
             && Went(FootprintOf(store, key), files,
                     if happened then Renamed(files, PathOf(store, key), name) else files, trace, length, after)
    requires AlwaysMovedOnce(store, key, origin, trace[..length], from)
    ensures AlwaysMovedOnce(store, key, origin, trace, from)
    ensures if happened
            then MovedTo(store, key, origin, after, QuarantineName(Hex(key.bytes), store.format.suffix, identifier))
            else InsideKept(FootprintOf(store, key), origin, after)
  {
    var footprint, path := FootprintOf(store, key), PathOf(store, key);
    var name := QuarantineName(Hex(key.bytes), store.format.suffix, identifier);
    if happened {
      assert Look(files, path) == Look(origin, path) && Look(files, name) == Look(origin, name);
      assert InsideKept(footprint, Renamed(origin, path, name), Renamed(files, path, name));
    }
    forall t | from <= t < |trace| ensures MovedOnce(store, key, origin, trace[t].files) {
      if t < length {
        assert trace[..length][t] == trace[t];
      } else if happened && !InsideKept(footprint, files, trace[t].files) {
        assert MovedTo(store, key, origin, trace[t].files, name);
      }
    }
  }

  /** The bytes are at exactly one of the two names, and no other name of the key has changed. */
  ghost predicate AtOneName(store: Store, key: KeyHash, origin: Listing, files: Listing, name: string) {
    var path := PathOf(store, key);
    && path in origin && (path in files <==> name !in files)
    && (if path in files then files[path] else if name in files then files[name] else []) == origin[path]
    && forall other | Within(FootprintOf(store, key), other) && other != path && other != name ::
         Look(files, other) == Look(origin, other)
  }

  lemma MovedIsAtOneName(store: Store, key: KeyHash, origin: Listing, files: Listing, name: string)
    requires Spare(store, key, name) && PathOf(store, key) in origin && name !in origin
    requires InsideKept(FootprintOf(store, key), origin, files) || MovedTo(store, key, origin, files, name)
    ensures AtOneName(store, key, origin, files, name)
  {
    var path := PathOf(store, key);
    assert Within(FootprintOf(store, key), path);
    if MovedTo(store, key, origin, files, name) {
      var renamed := Renamed(origin, path, name);
      assert Look(files, path) == Look(renamed, path) && Look(files, name) == Look(renamed, name);
    } else {
      assert Look(files, path) == Look(origin, path) && Look(files, name) == Look(origin, name);
    }
  }

  /** In each such state the bytes are at exactly one of the two names. */
  lemma BytesAreAtOneName(store: Store, key: KeyHash, origin: Listing, files: Listing, identifier: string)
    requires store.Valid() && key.Valid() && Identifier(identifier) && PathOf(store, key) in origin
    requires var name := QuarantineName(Hex(key.bytes), store.format.suffix, identifier);
             && name !in origin
             && (InsideKept(FootprintOf(store, key), origin, files) || MovedTo(store, key, origin, files, name))
    ensures AtOneName(store, key, origin, files, QuarantineName(Hex(key.bytes), store.format.suffix, identifier))
  {
    NamesOf(store, key, SaveStaging, identifier);
    MovedIsAtOneName(store, key, origin, files, QuarantineName(Hex(key.bytes), store.format.suffix, identifier));
  }

  // ---------------------------------------------------------------- load and inspect

  lemma BrokenHeaderAgrees(format: BlobFormat, data: Blob, breaksAt: Option<nat>, maximum: nat)
    ensures var answer := DecodeHeader(format, Source(data, breaksAt), maximum);
            answer == DecodeHeader(format, File(data), maximum) || answer == Err(Io(ReadEnvelope))
  {
  }

  lemma BrokenBodyAgrees(data: Blob, breaksAt: Option<nat>, declared: nat)
    requires HEADER_LEN <= Source(data, breaksAt).Readable()
    ensures var answer := DecodeBody(Source(data, breaksAt), declared);
            answer == DecodeBody(File(data), declared) || answer == Err(Io(ReadEnvelope))
  {
  }

  /** A file whose reads may fail somewhere gives the answer of the intact file, or an I/O error. */
  lemma BrokenReadsAgree(format: BlobFormat, data: Blob, breaksAt: Option<nat>, maximum: nat)
    ensures var answer := Decode(format, Source(data, breaksAt), maximum);
            answer == Decode(format, File(data), maximum) || answer == Err(Io(ReadEnvelope))
  {
    BrokenHeaderAgrees(format, data, breaksAt, maximum);
    var header := DecodeHeader(format, Source(data, breaksAt), maximum);
    if header.Ok? {
      BrokenBodyAgrees(data, breaksAt, header.value);
    }
  }

  method DecodeFile(store: Store, dir: Directory, data: Blob) returns (r: Result<Option<Blob>>)
    requires store.Valid()
    modifies dir`faults
    ensures LoadAnswer(store, Some(data), r)
    ensures r.Err? && Hindered(r.error) ==> old(dir.faults) < dir.faults
    ensures old(dir.faults) <= dir.faults
  {
    var breaksAt: Option<nat> := *;
    if breaksAt.Some? {
      dir.Blame();
    }
    var reader := new Reader(Source(data, breaksAt));
    BrokenReadsAgree(store.format, data, breaksAt, store.maximum);
    LimitsNeverBiteOn64Bits(store.format, reader.source, store.maximum);
    var decoded := DecodeReader(store.format, reader, store.maximum, U64_MAX);
    return match decoded case Ok(payload) => Ok(Some(payload)) case Err(error) => Err(error);
  }

  /** `load_blob`. */
  method LoadBlob(store: Store, dir: Directory, key: KeyHash) returns (r: Result<Option<Blob>>)
    requires Ready(store, key, dir)
    modifies dir
    ensures Ready(store, key, dir) && old(dir.trace) <= dir.trace
    ensures Untouched(store, key, dir, |old(dir.trace)|, Look(old(dir.files), PathOf(store, key)))
    ensures dir.unsynced == old(dir.unsynced) && SparesKept(store, key, old(dir.files), dir.files, None)
    ensures LoadAnswer(store, Look(old(dir.files), PathOf(store, key)), r)
    ensures r == Ok(None) ==> old(dir.available) < dir.available
    ensures r.Err? && Hindered(r.error) ==> old(dir.faults) < dir.faults
  {
    var path := PathOf(store, key);
    var access := dir.Reach(path);
    match access {
      case Done =>
        r := DecodeFile(store, dir, dir.files[path]);
      case Missing =>
        var available := dir.EnsureNamespaceAvailable();
        return match available case Ok(_) => Ok(None) case Err(error) => Err(error);
      case _ => return Err(Io(OpenBlob));
    }
  }

  /** `load_blob_into_sender`, from opening the file on. The file is the same in both passes, because no
      other operation on the key runs. */
  method LoadBlobStream(store: Store, dir: Directory, key: KeyHash, chunks: ChunkSender, acknowledged: bool)
    returns (r: Result<Option<nat>>)
    requires Ready(store, key, dir) && chunks.sent == [] && !chunks.gone
    modifies dir, chunks
    ensures Ready(store, key, dir) && old(dir.trace) <= dir.trace
    ensures Untouched(store, key, dir, |old(dir.trace)|, Look(old(dir.files), PathOf(store, key)))
    ensures dir.unsynced == old(dir.unsynced) && SparesKept(store, key, old(dir.files), dir.files, None)
    ensures LoadStreamAnswer(store, Look(old(dir.files), PathOf(store, key)), r, Joined(chunks.sent))
    ensures r == Ok(None) ==> old(dir.available) < dir.available
    ensures r.Err? && Hindered(r.error) ==> old(dir.faults) < dir.faults
    ensures r == Err(StreamCancelled) ==> chunks.gone || !acknowledged
  {
    var path := PathOf(store, key);
    var access := dir.Reach(path);
    match access {
      case Done => r := StreamFile(store, dir, dir.files[path], chunks, acknowledged);
      case Missing =>
        var available := dir.EnsureNamespaceAvailable();
        return match available case Ok(_) => Ok(None) case Err(error) => Err(error);
      case _ => return Err(Io(OpenBlob));
    }
  }

  /** Both passes over the opened file. */
  method StreamFile(store: Store, dir: Directory, data: Blob, chunks: ChunkSender, acknowledged: bool)
    returns (r: Result<Option<nat>>)
    requires store.Valid() && chunks.sent == [] && !chunks.gone
    modifies dir`faults, chunks
    ensures LoadStreamAnswer(store, Some(data), r, Joined(chunks.sent))
    ensures r.Err? && Hindered(r.error) ==> old(dir.faults) < dir.faults
    ensures r == Err(StreamCancelled) ==> chunks.gone || !acknowledged
  {
    var breaksAt: Option<nat> := *;
    var breaksLater: Option<nat> := *;
    if breaksAt.Some? || breaksLater.Some? {
      dir.Blame();
    }
    var file := new Reader(Source(data, breaksAt));
    var again := new Reader(Source(data, breaksLater));
    BrokenReadsAgree(store.format, data, breaksAt, store.maximum);
    var sent := LoadBlobIntoSender(store.format, store.maximum, file, again, chunks, acknowledged);
    StreamEnds(store, data, breaksAt, breaksLater, chunks.sent, sent, chunks.gone || !acknowledged);
    return match sent case Ok(size) => Ok(Some(size)) case Err(error) => Err(error);
  }

  /** What was streamed is a beginning of the payload. */
  lemma StreamedIsPrefix(
      store: Store, data: Blob, breaksAt: Option<nat>, breaksLater: Option<nat>, sent: seq<seq<Byte>>)
    requires var decoded := Decode(store.format, Source(data, breaksAt), store.maximum);
             decoded.Ok? && Streamed(Source(data, breaksLater), sent, |decoded.value|)
    ensures Decode(store.format, File(data), store.maximum).Ok?
    ensures var payload := Decode(store.format, File(data), store.maximum).value;
            && payload == Decode(store.format, Source(data, breaksAt), store.maximum).value
            && Joined(sent) <= payload
  {
    BrokenReadsAgree(store.format, data, breaksAt, store.maximum);
    var payload, count := Decode(store.format, File(data), store.maximum).value, |Joined(sent)|;
    assert payload == data[HEADER_LEN..HEADER_LEN + |payload|];
    assert count > 0 ==> payload[..count] == data[HEADER_LEN..HEADER_LEN + count];
  }

  /** How the two passes may end, seen from the file. */
  lemma StreamEnds(
      store: Store, data: Blob, breaksAt: Option<nat>, breaksLater: Option<nat>, sent: seq<seq<Byte>>,
      answer: Result<nat>, cancelled: bool)
    requires var decoded := Decode(store.format, Source(data, breaksAt), store.maximum);
             if decoded.Err? then answer == Err(decoded.error) && sent == []
             else
               && Streamed(Source(data, breaksLater), sent, |decoded.value|)
               && match answer
                  case Ok(size) => size == |decoded.value| == |Joined(sent)|
                  case Err(error) =>
                    || (error == StreamCancelled && cancelled)
                    || (error == Source(data, breaksLater).Shortage(PayloadSection)
                        && Source(data, breaksLater).Readable() < HEADER_LEN + |decoded.value|)
    ensures LoadStreamAnswer(store, Some(data), if answer.Ok? then Ok(Some(answer.value)) else Err(answer.error),
                             Joined(sent))
    ensures answer.Err? && Hindered(answer.error) ==> breaksAt.Some? || breaksLater.Some?
    ensures answer == Err(StreamCancelled) ==> cancelled
  {
    BrokenReadsAgree(store.format, data, breaksAt, store.maximum);
    if Decode(store.format, Source(data, breaksAt), store.maximum).Ok? {
      StreamedIsPrefix(store, data, breaksAt, breaksLater, sent);
    }
  }

  /** What a look at a file's metadata shows. */
  datatype Metadata = Metadata(regular: bool, modified: Option<nat>)

  /** `inspect_blob`. */
  method InspectBlob(store: Store, dir: Directory, key: KeyHash, metadata: Metadata) returns (r: Result<Inspection>)
    requires Ready(store, key, dir)
    modifies dir
    ensures Ready(store, key, dir) && old(dir.trace) <= dir.trace
    ensures Untouched(store, key, dir, |old(dir.trace)|, Look(old(dir.files), PathOf(store, key)))
    ensures dir.unsynced == old(dir.unsynced) && SparesKept(store, key, old(dir.files), dir.files, None)
    ensures var file := Look(old(dir.files), PathOf(store, key));
            && InspectAnswer(file, r)
            && (file.Some? && !metadata.regular ==> r.Err?)
            && (r.Ok? && file.Some? ==> r.value.modified == metadata.modified)
            && (r.Err? && r.error.UnexpectedFileType? ==> !metadata.regular)
            && (r.Ok? && file.None? ==> old(dir.available) < dir.available)
    ensures r.Err? && Hindered(r.error) ==> old(dir.faults) < dir.faults
  {
    var path := PathOf(store, key);
    var looked := dir.Reach(path);
    match looked {
      case Done =>
        if !metadata.regular {
          return Err(UnexpectedFileType);
        }
        return Ok(Inspection(Some(|dir.files[path]|), metadata.modified));
      case Missing =>
        var available := dir.EnsureNamespaceAvailable();
        return match available case Ok(_) => Ok(Inspection(None, None)) case Err(error) => Err(error);
      case _ => return Err(Io(IoStage.InspectBlob));
    }
  }
}
