/** The identity of one application's blob format, and the grammar of its file-name suffix
    (`src/config.rs`). */
module Config {
  import opened Bytes

  const DOMAIN_TAG_LEN: nat := 8
  const ENVELOPE_VERSION_V1: nat := 1
  const MAX_FILENAME_SUFFIX_LEN: nat := 32
  const HEADER_LEN: nat := 18
  const CHECKSUM_LEN: nat := 4
  const STREAM_CHUNK_SIZE: nat := 65536

  datatype BlobFormat = BlobFormat(domain: seq<Byte>, suffix: string, version: nat) {
    ghost predicate Valid() {
      |domain| == DOMAIN_TAG_LEN && version == ENVELOPE_VERSION_V1 && ValidSuffix(suffix)
    }
  }

  datatype ConfigError =
    | InvalidDomainTagLength(found: nat)
    | InvalidFilenameSuffix
    | UnsupportedConfiguredEnvelopeVersion(version: nat)
    | InvalidMaximumBlobSize(maximum: nat)

  datatype Configured<+T> = Accepted(value: T) | Rejected(error: ConfigError)

  predicate SuffixChar(c: char) {
    'a' <= c <= 'z' || '0' <= c <= '9' || c == '_' || c == '-'
  }

  predicate ValidSuffix(suffix: string) {
    && 2 <= |suffix| <= MAX_FILENAME_SUFFIX_LEN
    && suffix[0] == '.'
    && forall i | 1 <= i < |suffix| :: SuffixChar(suffix[i])
  }

  /** `BlobFormatIdentity::new`: the three checks in their order. */
  function NewFormat(domain: seq<Byte>, suffix: string, version: nat): (r: Configured<BlobFormat>)
    ensures r.Accepted? <==> BlobFormat(domain, suffix, version).Valid()
    ensures r.Accepted? ==> r.value == BlobFormat(domain, suffix, version)
    ensures r.Accepted? <==>
              && |domain| == 8 && version == 1 && 2 <= |suffix| <= 32 && suffix[0] == '.'
              && forall i | 1 <= i < |suffix| ::
                   'a' <= suffix[i] <= 'z' || '0' <= suffix[i] <= '9' || suffix[i] == '_' || suffix[i] == '-'
    ensures r.Rejected? ==>
              match r.error
              case InvalidDomainTagLength(found) => found == |domain| != DOMAIN_TAG_LEN
              case InvalidFilenameSuffix => |domain| == DOMAIN_TAG_LEN && !ValidSuffix(suffix)
              case UnsupportedConfiguredEnvelopeVersion(found) =>
                |domain| == DOMAIN_TAG_LEN && ValidSuffix(suffix) && found == version != ENVELOPE_VERSION_V1
              case InvalidMaximumBlobSize(_) => false
  {
    if |domain| != DOMAIN_TAG_LEN then Rejected(InvalidDomainTagLength(|domain|))
    else if !ValidSuffix(suffix) then Rejected(InvalidFilenameSuffix)
    else if version != ENVELOPE_VERSION_V1 then Rejected(UnsupportedConfiguredEnvelopeVersion(version))
    else Accepted(BlobFormat(domain, suffix, version))
  }

  /** `validate_maximum`: the payload bound has to leave room for header and checksum in a `u64`. */
  function ValidateMaximum(maximum: nat): (r: Configured<()>)
    requires maximum <= U64_MAX
    ensures r.Accepted? <==> maximum <= 18_446_744_073_709_551_593
    ensures r.Rejected? ==> r.error == InvalidMaximumBlobSize(maximum)
  {
    if maximum + (HEADER_LEN + CHECKSUM_LEN) > U64_MAX then Rejected(InvalidMaximumBlobSize(maximum))
    else Accepted(())
  }
}
