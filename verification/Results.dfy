/** The values a store call can answer with: results, and the errors of `src/error.rs` that the
    modelled code returns. Error payloads that only carry an operating-system message are left out. */
module Results {
  import opened Bytes

  datatype Option<+T> = None | Some(value: T)

  datatype Result<+T> = Ok(value: T) | Err(error: Error)

  datatype Section = MagicSection | VersionSection | LengthSection | PayloadSection | ChecksumSection

  /** Which filesystem or stream access an I/O error happened in. */
  datatype IoStage =
    | OpenBlob
    | ReadEnvelope
    | OpenStaging
    | WriteEnvelope
    | RemoveBlob
    | RemoveTemporaryFile
    | RefreshClearStagingAge
    | SyncNamespaceDirectory
    | InspectBlob
    | InspectNamespace
    | EnumerateTemporaryFiles

  datatype Error =
    | BlobTooLarge(size: nat, maximum: nat)
    | InvalidPayloadLength(declaredLength: nat)
    | InvalidEnvelopeDomain(expectedDomain: seq<Byte>, foundDomain: seq<Byte>)
    | UnsupportedEnvelopeVersion(foundVersion: nat)
    | TruncatedEnvelope(section: Section)
    | TrailingData
    | ChecksumMismatch(expectedChecksum: seq<Byte>, actualChecksum: seq<Byte>)
    | InputEndedEarly(declaredInput: nat, actualInput: nat)
    | InputHasTrailingData(declaredTotal: nat)
    | InputIo
    | OutputIo
    | StreamCancelled
    | AtomicCommit
    | IdentifierGeneration
    | UnexpectedFileType
    | QuarantineSourceMissing
    | QuarantineCommit
    | QuarantineNamespaceSync(quarantined: string)
    | WorkerUnavailable
    | StoreClosed
    | ShutdownFailure
    | EngineFailed
    | Io(stage: IoStage)
}
