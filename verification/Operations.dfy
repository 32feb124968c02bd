/** The operations of a store and what each of them may do to the canonical file of its key
    (`src/engine/operation.rs`, and the outcomes documented in README.md of the repository). */
module Operations {
  import opened Bytes
  import opened Config
  import opened Envelope
  import opened EnvelopeIo
  import opened Results

  /** A key, by its hash: 32 bytes. */
  datatype KeyHash = KeyHash(bytes: seq<Byte>) {
    ghost predicate Valid() {
      |bytes| == 32
    }
  }

  /** The content of a canonical file. */
  type Blob = seq<Byte>

  datatype Operation =
    | Load
    | LoadStream
    | Save(payload: seq<Byte>)
    | SaveStream(declared: nat, messages: seq<SaveMessage>)
    | Clear
    | Inspect
    | Quarantine

  /** What an inspection finds: the size of a file that is there, and when it was last modified, if known. */
  datatype Inspection = Inspection(size: Option<nat>, modified: Option<nat>)

  /** `BlockingResult`; for a streaming load with the bytes that went to the reader before it. */
  datatype OperationResult =
    | Loaded(load: Result<Option<seq<Byte>>>)
    | LoadStreamed(metadata: Result<Option<nat>>, delivered: seq<Byte>)
    | Saved(save: Result<()>)
    | SaveStreamed(stream: Result<()>)
    | Cleared(clear: Result<()>)
    | Inspected(inspection: Result<Inspection>)
    | Quarantined(quarantine: Result<string>)

  /** The pairs that `deliver` can send; every other pair is unreachable there. */
  predicate Matches(operation: Operation, result: OperationResult) {
    match operation
    case Load => result.Loaded?
    case LoadStream => result.LoadStreamed?
    case Save(_) => result.Saved?
    case SaveStream(_, _) => result.SaveStreamed?
    case Clear => result.Cleared?
    case Inspect => result.Inspected?
    case Quarantine => result.Quarantined?
  }

  datatype Store = Store(format: BlobFormat, maximum: nat) {
    ghost predicate Valid() {
      format.Valid() && maximum <= U64_MAX && ValidateMaximum(maximum).Accepted?
    }
  }

  /** Errors that only come from a system call that failed, or from random bytes that ran out. */
  predicate Hindered(error: Error) {
    error.Io? || error.AtomicCommit? || error.QuarantineCommit? || error.QuarantineNamespaceSync?
    || error.IdentifierGeneration?
  }

  /** The calls that a load makes, and how their failure is reported. */
  predicate LoadFails(error: Error) {
    error == Io(OpenBlob) || error == Io(ReadEnvelope) || error == Io(InspectNamespace)
  }

  /** What a save reports when it does not come to its commit. */
  predicate StagingFails(error: Error) {
    error == Io(OpenStaging) || error == Io(WriteEnvelope) || error.IdentifierGeneration?
  }

  /** A complete load answers with the decoded file, or with an I/O error. */
  ghost predicate LoadAnswer(store: Store, file: Option<Blob>, answer: Result<Option<seq<Byte>>>) {
    || (answer.Err? && LoadFails(answer.error))
    || answer == match file
                 case None => Ok(None)
                 case Some(data) =>
                   match Decode(store.format, File(data), store.maximum)
                   case Ok(payload) => Ok(Some(payload))
                   case Err(error) => Err(error)
  }

  /** A streaming load may also be cancelled by its reader, once the file has been validated. Its reader
      gets nothing of a file that is not valid, a beginning of the payload of one that is, and all of it
      if the load succeeds. */
  ghost predicate LoadStreamAnswer(
      store: Store, file: Option<Blob>, answer: Result<Option<nat>>, delivered: seq<Byte>)
  {
    var hindered := answer.Err? && LoadFails(answer.error);
    match file
    case None => delivered == [] && (hindered || answer == Ok(None))
    case Some(data) =>
      match Decode(store.format, File(data), store.maximum)
      case Err(error) => delivered == [] && (hindered || answer == Err(error))
      case Ok(payload) =>
        && delivered <= payload
        && (hindered || answer == Err(StreamCancelled) || (answer == Ok(Some(|payload|)) && delivered == payload))
  }

  /** An inspection tells presence and size, also of files that no decoder would accept. */
  ghost predicate InspectAnswer(file: Option<Blob>, answer: Result<Inspection>) {
    match answer
    case Ok(found) =>
      && found.size == (if file.Some? then Some(|file.value|) else None)
      && (file.None? ==> found.modified.None?)
    case Err(error) =>
      error == Io(InspectBlob) || error == Io(InspectNamespace) || (error.UnexpectedFileType? && file.Some?)
  }

  /** Replacing the file by `payload`'s envelope: a success replaces it; an atomic-commit error may have
      replaced it; a failed directory sync comes after the replacement, every other error before. */
  ghost predicate Replaces(
      store: Store, payload: seq<Byte>, before: Option<Blob>, after: Option<Blob>, answer: Result<()>)
  {
    if |store.format.domain| == DOMAIN_TAG_LEN && |payload| <= store.maximum then
      var replacement := Some(Encode(store.format, payload));
      match answer
      case Ok(_) => after == replacement
      case Err(AtomicCommit) => after == before || after == replacement
      case Err(Io(SyncNamespaceDirectory)) => after == replacement
      case Err(error) => after == before && StagingFails(error)
    else
      after == before && answer == Err(BlobTooLarge(|payload|, store.maximum))
  }

  ghost predicate StreamReplaces(
      store: Store, declared: nat, messages: seq<SaveMessage>, before: Option<Blob>, after: Option<Blob>,
      answer: Result<()>)
  {
    if declared > store.maximum then after == before && answer == Err(BlobTooLarge(declared, store.maximum))
    else
      match StreamResult(declared, messages)
      case Ok(payload) => Replaces(store, payload, before, after, answer)
      case Err(error) =>
        && after == before
        && (answer == Err(error) || (answer.Err? && StagingFails(answer.error)))
  }

  ghost predicate Clears(before: Option<Blob>, after: Option<Blob>, answer: Result<()>) {
    match answer
    case Ok(_) => after == None
    case Err(Io(SyncNamespaceDirectory)) => after == None
    case Err(Io(RemoveTemporaryFile)) => after == None
    case Err(Io(RemoveBlob)) => after == before || after == None
    case Err(error) =>
      after == before
      && (error == Io(RefreshClearStagingAge) || error == Io(InspectNamespace) || error.IdentifierGeneration?)
  }

  ghost predicate Quarantines(before: Option<Blob>, after: Option<Blob>, answer: Result<string>) {
    match answer
    case Ok(_) => before.Some? && after == None
    case Err(QuarantineNamespaceSync(_)) => before.Some? && after == None
    case Err(QuarantineSourceMissing) => before == None && after == None
    case Err(QuarantineCommit) => after == before || after == None
    case Err(error) => after == before && (error == Io(InspectNamespace) || error.IdentifierGeneration?)
  }

  /** What one execution of `operation` may do: from the file `before` to the file `after`, with
      `result`, or with no result at all when the job panicked. */
  ghost predicate Legal(
      store: Store, operation: Operation, before: Option<Blob>, after: Option<Blob>,
      result: Option<OperationResult>)
  {
    match result
    case None => Interrupted(store, operation, before, after)
    case Some(answer) =>
      Matches(operation, answer)
      && match operation
         case Load => after == before && LoadAnswer(store, before, answer.load)
         case LoadStream => after == before && LoadStreamAnswer(store, before, answer.metadata, answer.delivered)
         case Save(payload) => Replaces(store, payload, before, after, answer.save)
         case SaveStream(declared, messages) =>
           StreamReplaces(store, declared, messages, before, after, answer.stream)
         case Clear => Clears(before, after, answer.clear)
         case Inspect => after == before && InspectAnswer(before, answer.inspection)
         case Quarantine => Quarantines(before, after, answer.quarantine)
  }

  /** What a reader may find while `operation` is under way, or after it was interrupted for good: the
      complete old file or the complete new one. */
  ghost predicate Interrupted(store: Store, operation: Operation, before: Option<Blob>, after: Option<Blob>) {
    || after == before
    || (operation.Save? && |operation.payload| <= store.maximum && |store.format.domain| == DOMAIN_TAG_LEN
        && after == Some(Encode(store.format, operation.payload)))
    || (operation.SaveStream? && operation.declared <= store.maximum && |store.format.domain| == DOMAIN_TAG_LEN
        && StreamResult(operation.declared, operation.messages).Ok?
        && after == Some(Encode(store.format, PayloadOf(operation.messages))))
    || ((operation.Clear? || operation.Quarantine?) && after == None)
  }

  /** Every finished execution is also old-or-new, and pairs the operation with a result that `deliver` accepts. */
  lemma LegalIsOldOrNew(
      store: Store, operation: Operation, before: Option<Blob>, after: Option<Blob>, result: Option<OperationResult>)
    requires Legal(store, operation, before, after, result)
    ensures Interrupted(store, operation, before, after)
    ensures result.Some? ==> Matches(operation, result.value)
  {
  }

  /** The payload that a successful save has put into the file. */
  function PayloadSaved(operation: Operation, result: OperationResult): Option<seq<Byte>> {
    match operation
    case Save(payload) => if result == Saved(Ok(())) then Some(payload) else None
    case SaveStream(_, messages) => if result == SaveStreamed(Ok(())) then Some(PayloadOf(messages)) else None
    case _ => None
  }

  /** The result of a load, as it has to be when the file holds `payload`: all of it, or an I/O error; a
      streaming load may also be cancelled by its reader, and has then delivered a beginning of it. */
  ghost predicate Returns(operation: Operation, result: OperationResult, payload: seq<Byte>) {
    match operation
    case Load => result.Loaded? && (result.load == Ok(Some(payload)) || (result.load.Err? && result.load.error.Io?))
    case LoadStream =>
      && result.LoadStreamed? && result.delivered <= payload
      && (match result.metadata
          case Ok(size) => size == Some(|payload|) && result.delivered == payload
          case Err(error) => error.Io? || error.StreamCancelled?)
    case _ => true
  }

  lemma SaveLeaves(
      store: Store, save: Operation, saved: OperationResult, before: Option<Blob>, after: Option<Blob>)
    requires store.Valid() && PayloadSaved(save, saved).Some? && Legal(store, save, before, after, Some(saved))
    ensures var payload := PayloadSaved(save, saved).value;
            |payload| <= store.maximum && after == Some(Encode(store.format, payload))
    ensures save.SaveStream? ==> |PayloadSaved(save, saved).value| == save.declared
  {
  }

  lemma LoadFinds(
      store: Store, file: Blob, payload: seq<Byte>, after: Option<Blob>, loaded: OperationResult)
    requires Decode(store.format, File(file), store.maximum) == Ok(payload)
    requires Legal(store, Load, Some(file), after, Some(loaded))
    ensures after == Some(file) && Returns(Load, loaded, payload)
  {
  }

  lemma LoadStreamFinds(
      store: Store, file: Blob, payload: seq<Byte>, after: Option<Blob>, loaded: OperationResult)
    requires Decode(store.format, File(file), store.maximum) == Ok(payload)
    requires Legal(store, LoadStream, Some(file), after, Some(loaded))
    ensures after == Some(file) && Returns(LoadStream, loaded, payload)
  {
  }

  /** A load, whole or streamed, that finds what a successful save, whole or streamed, has left returns the
      saved payload; for a stream it is the chunks' bytes, however they were cut. */
  lemma LoadReturnsWhatWasSaved(
      store: Store, save: Operation, saved: OperationResult, load: Operation, loaded: OperationResult,
      before: Option<Blob>, between: Option<Blob>, after: Option<Blob>)
    requires store.Valid() && PayloadSaved(save, saved).Some? && (load.Load? || load.LoadStream?)
    requires Legal(store, save, before, between, Some(saved))
    requires Legal(store, load, between, after, Some(loaded))
    ensures after == between && Returns(load, loaded, PayloadSaved(save, saved).value)
    ensures save.SaveStream? ==> |PayloadSaved(save, saved).value| == save.declared
  {
    var payload := PayloadSaved(save, saved).value;
    SaveLeaves(store, save, saved, before, between);
    EncodingDecodes(store.format, payload, store.maximum);
    if load.Load? {
      LoadFinds(store, between.value, payload, after, loaded);
    } else {
      LoadStreamFinds(store, between.value, payload, after, loaded);
    }
  }

  // ---------------------------------------------------------------- what each answer says of the file

  /** A save succeeds exactly with its own payload in place; a failed commit leaves the old or the new file;
      if only the directory's sync fails the new file is in place; after all else the old one is. A payload
      that is too large is refused with both sizes. */
  lemma SaveOutcomes(
      store: Store, payload: seq<Byte>, before: Option<Blob>, after: Option<Blob>, answer: OperationResult)
    requires store.Valid() && Legal(store, Save(payload), before, after, Some(answer))
    ensures answer.Saved?
    ensures |payload| > store.maximum ==>
              answer.save == Err(BlobTooLarge(|payload|, store.maximum)) && after == before
    ensures |payload| <= store.maximum ==>
              var file := Some(Encode(store.format, payload));
              && (answer.save == Ok(()) || answer.save == Err(Io(SyncNamespaceDirectory)) ==> after == file)
              && (answer.save == Err(AtomicCommit) ==> after == before || after == file)
              && (answer.save.Err? && answer.save.error != AtomicCommit
                  && answer.save.error != Io(SyncNamespaceDirectory) ==>
                    after == before
                    && (answer.save.error == Io(OpenStaging) || answer.save.error == Io(WriteEnvelope)
                        || answer.save.error == IdentifierGeneration))
  {
  }

  /** A streamed save is judged by the bytes before the completion marker: too many, too few, no marker, or
      just the declared number, and then it is a save of them. */
  lemma SaveStreamOutcomes(
      store: Store, declared: nat, messages: seq<SaveMessage>, before: Option<Blob>, after: Option<Blob>,
      answer: OperationResult)
    requires store.Valid() && Legal(store, SaveStream(declared, messages), before, after, Some(answer))
    ensures answer.SaveStreamed?
    ensures declared > store.maximum ==>
              answer.stream == Err(BlobTooLarge(declared, store.maximum)) && after == before
    ensures var bytes, hindered := PayloadOf(messages), answer.stream.Err? && StagingFails(answer.stream.error);
            declared <= store.maximum ==>
              && (|bytes| > declared ==>
                    after == before && (answer.stream == Err(InputHasTrailingData(declared)) || hindered))
              && (|bytes| <= declared && Complete !in messages ==>
                    after == before && (answer.stream == Err(StreamCancelled) || hindered))
              && (|bytes| < declared && Complete in messages ==>
                    after == before && (answer.stream == Err(InputEndedEarly(declared, |bytes|)) || hindered))
              && (|bytes| == declared && Complete in messages ==>
                    Legal(store, Save(bytes), before, after, Some(Saved(answer.stream))))
  {
  }

  /** A load of an absent file finds nothing, and of nothing else; a corrupt file is never taken for an absent
      one. It changes nothing. */
  lemma LoadOutcomes(store: Store, before: Option<Blob>, after: Option<Blob>, answer: OperationResult)
    requires store.Valid() && Legal(store, Load, before, after, Some(answer))
    ensures answer.Loaded? && after == before
    ensures answer.load == Ok(None) ==> before == None
    ensures answer.load.Ok? && answer.load.value.Some? ==>
              before == Some(Encode(store.format, answer.load.value.value))
              && |answer.load.value.value| <= store.maximum
    ensures answer.load.Err? && before == None ==> answer.load.error.Io?
    ensures answer.load.Err? && before.Some? ==>
              answer.load.error.Io?
              || Decode(store.format, File(before.value), store.maximum) == Err(answer.load.error)
  {
    if answer.load.Ok? && answer.load.value.Some? && before.Some? {
      DecodesExactlyTheEncoding(store.format, before.value, answer.load.value.value, store.maximum);
    }
  }

  /** A streaming load delivers nothing of a file that is absent or not valid, and reports a length exactly
      when it has delivered the whole payload. */
  lemma LoadStreamOutcomes(store: Store, before: Option<Blob>, after: Option<Blob>, answer: OperationResult)
    requires store.Valid() && Legal(store, LoadStream, before, after, Some(answer))
    ensures answer.LoadStreamed? && after == before
    ensures answer.metadata == Ok(None) ==> before == None
    ensures answer.metadata.Ok? && answer.metadata.value.Some? ==>
              before == Some(Encode(store.format, answer.delivered))
              && answer.metadata.value.value == |answer.delivered| <= store.maximum
    ensures answer.delivered != [] ==>
              before.Some? && Decode(store.format, File(before.value), store.maximum).Ok?
              && answer.delivered <= Decode(store.format, File(before.value), store.maximum).value
    ensures answer.metadata.Err? ==>
              answer.metadata.error.Io? || answer.metadata.error == StreamCancelled
              || (before.Some? && Decode(store.format, File(before.value), store.maximum) == Err(answer.metadata.error))
  {
    if answer.metadata.Ok? && before.Some? {
      DecodesExactlyTheEncoding(store.format, before.value, answer.delivered, store.maximum);
    }
  }

  /** A clear that succeeds has left no file; a failed rename leaves it or not; errors before the rename leave
      it, and errors after it do not. */
  lemma ClearOutcomes(store: Store, before: Option<Blob>, after: Option<Blob>, answer: OperationResult)
    requires Legal(store, Clear, before, after, Some(answer))
    ensures answer.Cleared? && (after == before || after == None)
    ensures answer.clear == Ok(()) ==> after == None
    ensures answer.clear == Err(Io(SyncNamespaceDirectory)) || answer.clear == Err(Io(RemoveTemporaryFile)) ==>
              after == None
    ensures answer.clear.Err? && after != before ==>
              answer.clear.error == Io(RemoveBlob) || answer.clear.error == Io(SyncNamespaceDirectory)
              || answer.clear.error == Io(RemoveTemporaryFile)
  {
  }

  /** A quarantine that succeeds has moved a file that was there, also if only the sync after it failed. */
  lemma QuarantineOutcomes(store: Store, before: Option<Blob>, after: Option<Blob>, answer: OperationResult)
    requires Legal(store, Quarantine, before, after, Some(answer))
    ensures answer.Quarantined? && (after == before || after == None)
    ensures answer.quarantine.Ok? || answer.quarantine.error.QuarantineNamespaceSync? ==>
              before.Some? && after == None
    ensures answer.quarantine == Err(QuarantineSourceMissing) ==> before == None
    ensures answer.quarantine.Err? && after != before ==>
              answer.quarantine.error == QuarantineCommit || answer.quarantine.error.QuarantineNamespaceSync?
  {
  }

  /** An inspection tells whether there is a file, and how large it is, whatever is in it. */
  lemma InspectOutcomes(store: Store, before: Option<Blob>, after: Option<Blob>, answer: OperationResult)
    requires Legal(store, Inspect, before, after, Some(answer))
    ensures answer.Inspected? && after == before
    ensures answer.inspection.Ok? ==>
              && (answer.inspection.value.size == None <==> before == None)
              && (before.Some? ==> answer.inspection.value.size == Some(|before.value|))
    ensures answer.inspection.Err? && before == None ==> answer.inspection.error.Io?
  {
  }

  /** Wherever an operation is stopped, there is the old file or what a success would have left: an envelope
      of the very payload, or no file; loads and inspections leave the old one. */
  lemma InterruptionOutcomes(store: Store, operation: Operation, before: Option<Blob>, after: Option<Blob>)
    requires store.Valid() && Interrupted(store, operation, before, after)
    ensures operation.Load? || operation.LoadStream? || operation.Inspect? ==> after == before
    ensures operation.Clear? || operation.Quarantine? ==> after == before || after == None
    ensures operation.Save? ==>
              after == before
              || (|operation.payload| <= store.maximum && after == Some(Encode(store.format, operation.payload)))
    ensures operation.SaveStream? ==>
              after == before
              || (Complete in operation.messages && |PayloadOf(operation.messages)| == operation.declared
                  && operation.declared <= store.maximum
                  && after == Some(Encode(store.format, PayloadOf(operation.messages))))
  {
  }
}
