/** `run_owned_operation` of `src/engine/operation.rs`: each operation, executed on the directory while
    others work on other names, does what Operations.Legal allows, and keeps to the names of its key. */
module Execution {
  import opened Directories
  import opened Envelope
  import opened EnvelopeIo
  import opened FileNames
  import opened Filesystem
  import opened Operations
  import opened Results

  function FileOf(store: Store, files: Listing, key: KeyHash): Option<Blob> {
    Look(files, PathOf(store, key))
  }

  /** Wherever the operation is stopped, its key's file is what `Interrupted` allows. */
  ghost predicate MayStop(store: Store, key: KeyHash, operation: Operation, origin: Listing, files: Listing) {
    Interrupted(store, operation, FileOf(store, origin, key), FileOf(store, files, key))
  }

  /** What is promised of an execution, whatever others do to other names meanwhile: its result and final
      file are legal, every state since it began is one it may be stopped in, and none of its own steps
      touches a name that is not its key's. */
  ghost predicate Executed(
      store: Store, key: KeyHash, operation: Operation, origin: Listing, trace: seq<Moment>, from: nat, files: Listing,
      result: OperationResult)
  {
    && Legal(store, operation, FileOf(store, origin, key), FileOf(store, files, key), Some(result))
    && (forall t | from <= t < |trace| :: MayStop(store, key, operation, origin, trace[t].files))
    && History(FootprintOf(store, key), trace)
  }

  lemma StatesMayStop(
      store: Store, key: KeyHash, operation: Operation, origin: Listing, trace: seq<Moment>, from: nat,
      replacement: Option<Blob>)
    requires Always(trace, from, PathOf(store, key), FileOf(store, origin, key), replacement)
    requires Interrupted(store, operation, FileOf(store, origin, key), replacement)
    ensures forall t | from <= t < |trace| :: MayStop(store, key, operation, origin, trace[t].files)
  {
  }

  /** The error in the result, if it is one. */
  function ErrorOf(result: OperationResult): Option<Error> {
    match result
    case Loaded(r) => if r.Err? then Some(r.error) else None
    case LoadStreamed(r, _) => if r.Err? then Some(r.error) else None
    case Saved(r) => if r.Err? then Some(r.error) else None
    case SaveStreamed(r) => if r.Err? then Some(r.error) else None
    case Cleared(r) => if r.Err? then Some(r.error) else None
    case Inspected(r) => if r.Err? then Some(r.error) else None
    case Quarantined(r) => if r.Err? then Some(r.error) else None
  }

  predicate WasHindered(result: OperationResult) {
    ErrorOf(result).Some? && Hindered(ErrorOf(result).value)
  }

  method RunSave(store: Store, dir: Directory, entropy: Entropy, key: KeyHash, payload: Blob)
    returns (result: OperationResult)
    requires Ready(store, key, dir) && entropy.Valid()
    modifies dir, entropy
    ensures Ready(store, key, dir) && entropy.Valid() && old(dir.trace) <= dir.trace
    ensures Executed(store, key, Save(payload), old(dir.files), dir.trace, |old(dir.trace)|, dir.files, result)
    ensures WasHindered(result) ==> old(dir.faults) < dir.faults || entropy.supply == []
    ensures dir.faults == old(dir.faults) ==> SparesKept(store, key, old(dir.files), dir.files, None)
    ensures ErrorOf(result).None? && !old(dir.unsynced) ==> !dir.unsynced
  {
    ghost var origin, from := dir.files, |dir.trace|;
    var r := SaveBlob(store, dir, entropy, key, payload);
    if |payload| <= store.maximum {
      StatesMayStop(store, key, Save(payload), origin, dir.trace, from, Some(Encode(store.format, payload)));
    }
    return Saved(r);
  }

  method RunSaveStream(
      store: Store, dir: Directory, entropy: Entropy, key: KeyHash, declared: nat, messages: seq<SaveMessage>)
    returns (result: OperationResult)
    requires Ready(store, key, dir) && entropy.Valid()
    modifies dir, entropy
    ensures Ready(store, key, dir) && entropy.Valid() && old(dir.trace) <= dir.trace
    ensures Executed(store, key, SaveStream(declared, messages), old(dir.files), dir.trace, |old(dir.trace)|,
                     dir.files, result)
    ensures WasHindered(result) ==> old(dir.faults) < dir.faults || entropy.supply == []
    ensures dir.faults == old(dir.faults) ==> SparesKept(store, key, old(dir.files), dir.files, None)
    ensures ErrorOf(result).None? && !old(dir.unsynced) ==> !dir.unsynced
  {
    ghost var origin, from := dir.files, |dir.trace|;
    var chunks := new SaveReceiver(messages);
    var r := SaveBlobFromReceiver(store, dir, entropy, key, declared, chunks);
    if declared <= store.maximum {
      StatesMayStop(store, key, SaveStream(declared, messages), origin, dir.trace, from,
                    Streamable(store, FileOf(store, origin, key), declared, messages));
    }
    return SaveStreamed(r);
  }

  method RunClear(store: Store, dir: Directory, entropy: Entropy, key: KeyHash) returns (result: OperationResult)
    requires Ready(store, key, dir) && entropy.Valid()
    modifies dir, entropy
    ensures Ready(store, key, dir) && entropy.Valid() && old(dir.trace) <= dir.trace
    ensures Executed(store, key, Clear, old(dir.files), dir.trace, |old(dir.trace)|, dir.files, result)
    ensures WasHindered(result) ==> old(dir.faults) < dir.faults || entropy.supply == []
    ensures dir.faults == old(dir.faults) ==> SparesKept(store, key, old(dir.files), dir.files, None)
    ensures ErrorOf(result).None? && !old(dir.unsynced) ==> !dir.unsynced
  {
    ghost var origin, from := dir.files, |dir.trace|;
    var r := ClearBlob(store, dir, entropy, key);
    StatesMayStop(store, key, Clear, origin, dir.trace, from, None);
    return Cleared(r);
  }

  lemma MovedOnceMayStop(store: Store, key: KeyHash, origin: Listing, files: Listing)
    requires store.Valid() && key.Valid() && MovedOnce(store, key, origin, files)
    ensures MayStop(store, key, Quarantine, origin, files)
  {
    var path := PathOf(store, key);
    assert Within(FootprintOf(store, key), path);
    if !InsideKept(FootprintOf(store, key), origin, files) {
      var identifier :| Identifier(identifier)
                        && MovedTo(store, key, origin, files,
                                   QuarantineName(Hex(key.bytes), store.format.suffix, identifier));
      var name := QuarantineName(Hex(key.bytes), store.format.suffix, identifier);
      assert |name| > |path|;
      assert Look(files, path) == Look(Renamed(origin, path, name), path);
    }
  }

  method RunQuarantine(store: Store, dir: Directory, entropy: Entropy, key: KeyHash) returns (result: OperationResult)
    requires Ready(store, key, dir) && entropy.Valid()
    modifies dir, entropy
    ensures Ready(store, key, dir) && entropy.Valid() && old(dir.trace) <= dir.trace
    ensures Executed(store, key, Quarantine, old(dir.files), dir.trace, |old(dir.trace)|, dir.files, result)
    ensures WasHindered(result) ==> old(dir.faults) < dir.faults || entropy.supply == []
    ensures ErrorOf(result).None? && !old(dir.unsynced) ==> !dir.unsynced
  {
    ghost var origin, from := dir.files, |dir.trace|;
    var r := QuarantineBlob(store, dir, entropy, key);
    forall t | from <= t < |dir.trace| ensures MayStop(store, key, Quarantine, origin, dir.trace[t].files) {
      MovedOnceMayStop(store, key, origin, dir.trace[t].files);
    }
    return OperationResult.Quarantined(r);
  }

  /** `run_owned_operation`. */
  method RunOwnedOperation(store: Store, dir: Directory, entropy: Entropy, key: KeyHash, operation: Operation)
    returns (result: OperationResult)
    requires Ready(store, key, dir) && entropy.Valid()
    modifies dir, entropy
    ensures Ready(store, key, dir) && entropy.Valid() && old(dir.trace) <= dir.trace
    ensures Executed(store, key, operation, old(dir.files), dir.trace, |old(dir.trace)|, dir.files, result)
    ensures WasHindered(result) ==> old(dir.faults) < dir.faults || entropy.supply == []
    ensures dir.faults == old(dir.faults) && !operation.Quarantine? ==>
              SparesKept(store, key, old(dir.files), dir.files, None)
    ensures ErrorOf(result).None? && !old(dir.unsynced) ==> !dir.unsynced
    ensures Matches(operation, result)
  {
    match operation {
      case Load =>
        var r := LoadBlob(store, dir, key);
        result := Loaded(r);
      case LoadStream =>
        var chunks := new ChunkSender();
        var acknowledged: bool := *;
        var r := LoadBlobStream(store, dir, key, chunks, acknowledged);
        result := LoadStreamed(r, Joined(chunks.sent));
      case Save(payload) => result := RunSave(store, dir, entropy, key, payload);
      case SaveStream(declared, messages) => result := RunSaveStream(store, dir, entropy, key, declared, messages);
      case Clear => result := RunClear(store, dir, entropy, key);
      case Inspect =>
        var metadata: Metadata := *;
        var r := Filesystem.InspectBlob(store, dir, key, metadata);
        result := Inspected(r);
      case Quarantine => result := RunQuarantine(store, dir, entropy, key);
    }
  }
}
