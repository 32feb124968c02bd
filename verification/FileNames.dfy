/** The names of a store's files: canonical files, staging files and quarantined files, and the
    recogniser that decides what a clean-up may delete (`src/filesystem/mod.rs`). */
module FileNames {
  import opened Bytes
  import opened Config
  import opened Results

  const HEX_DIGITS: string := "0123456789abcdef"
  const IDENTIFIER_LEN: nat := 64
  const STAGING_MARK: string := ".tmp-v1."
  const QUARANTINE_MARK: string := ".quarantine-v1."

  predicate HexChar(c: char) {
    '0' <= c <= '9' || 'a' <= c <= 'f'
  }

  /** Sixty-four lower-case hexadecimal digits. */
  predicate Identifier(text: string) {
    |text| == IDENTIFIER_LEN && forall i | 0 <= i < |text| :: HexChar(text[i])
  }

  /** Two digits for each byte. */
  function Hex(bytes: seq<Byte>): (text: string)
    ensures |text| == 2 * |bytes|
    ensures forall i | 0 <= i < |text| :: HexChar(text[i])
  {
    if bytes == [] then ""
    else
      var last := bytes[|bytes| - 1];
      Hex(bytes[..|bytes| - 1]) + [HEX_DIGITS[last / 16], HEX_DIGITS[last % 16]]
  }

  lemma DigitsDiffer(a: nat, b: nat)
    requires a < 16 && b < 16 && HEX_DIGITS[a] == HEX_DIGITS[b]
    ensures a == b
  {
  }

  lemma DigitPairsDiffer(x: Byte, y: Byte)
    requires HEX_DIGITS[x / 16] == HEX_DIGITS[y / 16] && HEX_DIGITS[x % 16] == HEX_DIGITS[y % 16]
    ensures x == y
  {
    DigitsDiffer(x / 16, y / 16);
    DigitsDiffer(x % 16, y % 16);
  }

  /** Different bytes print differently: no two keys share a file. */
  lemma {:induction false} HexIsInjective(a: seq<Byte>, b: seq<Byte>)
    requires Hex(a) == Hex(b)
    ensures a == b
  {
    assert |a| == |b|;
    if a == [] {
    } else {
      var x, y, n := a[|a| - 1], b[|b| - 1], |Hex(a)|;
      assert Hex(a)[n - 2] == HEX_DIGITS[x / 16] && Hex(b)[n - 2] == HEX_DIGITS[y / 16];
      assert Hex(a)[n - 1] == HEX_DIGITS[x % 16] && Hex(b)[n - 1] == HEX_DIGITS[y % 16];
      DigitPairsDiffer(x, y);
      assert Hex(a)[..n - 2] == Hex(a[..|a| - 1]) && Hex(b)[..n - 2] == Hex(b[..|b| - 1]);
      HexIsInjective(a[..|a| - 1], b[..|b| - 1]);
      assert a == a[..|a| - 1] + [x] && b == b[..|b| - 1] + [y];
    }
  }

  /** Byte `k` is spelled by two lower-case hexadecimal digits, the higher one first. */
  lemma {:induction false} HexSpells(bytes: seq<Byte>, k: nat)
    requires k < |bytes|
    ensures Hex(bytes)[2 * k] == "0123456789abcdef"[bytes[k] / 16]
    ensures Hex(bytes)[2 * k + 1] == "0123456789abcdef"[bytes[k] % 16]
  {
    var front := bytes[..|bytes| - 1];
    assert |Hex(front)| == 2 * |front|;
    if k < |front| {
      HexSpells(front, k);
    }
  }

  /** `random_identifier`: 32 random bytes in hexadecimal, if the system has them to give. */
  method RandomIdentifier(random: Option<seq<Byte>>) returns (r: Result<string>)
    requires random.Some? ==> |random.value| == 32
    ensures random.None? ==> r == Err(Error.IdentifierGeneration)
    ensures random.Some? ==> r == Ok(Hex(random.value)) && Identifier(r.value)
    ensures random.Some? ==>
              |r.value| == 64
              && forall i | 0 <= i < 32 ::
                   r.value[2 * i] == "0123456789abcdef"[random.value[i] / 16]
                   && r.value[2 * i + 1] == "0123456789abcdef"[random.value[i] % 16]
  {
    if random.None? {
      return Err(Error.IdentifierGeneration);
    }
    var bytes, text := random.value, "";
    var i := 0;
    while i < |bytes|
      invariant 0 <= i <= |bytes|
      invariant text == Hex(bytes[..i])
    {
      text := text + [HEX_DIGITS[bytes[i] / 16]];
      text := text + [HEX_DIGITS[bytes[i] % 16]];
      i := i + 1;
      assert bytes[..i][..i - 1] == bytes[..i - 1];
    }
    assert bytes[..i] == bytes;
    forall k | 0 <= k < 32
      ensures text[2 * k] == "0123456789abcdef"[bytes[k] / 16] && text[2 * k + 1] == "0123456789abcdef"[bytes[k] % 16]
    {
      HexSpells(bytes, k);
    }
    return Ok(text);
  }

  datatype StagingKind = SaveStaging | ClearStaging

  function KindName(kind: StagingKind): string {
    match kind
    case SaveStaging => "save"
    case ClearStaging => "clear"
  }

  /** `blob_filename` for a key's hash. */
  function CanonicalName(hash: string, suffix: string): string {
    hash + suffix
  }

  function StagingName(hash: string, suffix: string, kind: StagingKind, identifier: string): string {
    hash + suffix + STAGING_MARK + KindName(kind) + "." + identifier
  }

  function QuarantineName(hash: string, suffix: string, identifier: string): string {
    hash + suffix + QUARANTINE_MARK + identifier
  }

  /** The names, spelled out. */
  lemma NamesAreSpelled(hash: string, suffix: string, identifier: string)
    ensures CanonicalName(hash, suffix) == hash + suffix
    ensures StagingName(hash, suffix, SaveStaging, identifier) == hash + suffix + ".tmp-v1.save." + identifier
    ensures StagingName(hash, suffix, ClearStaging, identifier) == hash + suffix + ".tmp-v1.clear." + identifier
    ensures QuarantineName(hash, suffix, identifier) == hash + suffix + ".quarantine-v1." + identifier
  {
    var head := hash + suffix;
    assert ".tmp-v1." + "save" + "." == ".tmp-v1.save." && ".tmp-v1." + "clear" + "." == ".tmp-v1.clear.";
    assert head + ".tmp-v1." + "save" + "." == head + (".tmp-v1." + "save" + ".");
    assert head + ".tmp-v1." + "clear" + "." == head + (".tmp-v1." + "clear" + ".");
  }

  /** `file_stem`: what stands before the last dot. */
  function FileStem(name: string): (stem: string) {
    if '.' !in name then name
    else if name[|name| - 1] == '.' then name[..|name| - 1]
    else FileStem(name[..|name| - 1])
  }

  /** `split_once`: around the first occurrence of the pattern. */
  function SplitOnce(text: string, pattern: string): Option<(string, string)> {
    if |text| < |pattern| then None
    else if text[..|pattern|] == pattern then Some(("", text[|pattern|..]))
    else if text == "" then None
    else
      match SplitOnce(text[1..], pattern)
      case None => None
      case Some((before, after)) => Some(([text[0]] + before, after))
  }

  /** `is_owned_temporary_filename`. */
  predicate IsOwnedTemporaryFilename(name: string, suffix: string) {
    match SplitOnce(name, suffix + STAGING_MARK)
    case None => false
    case Some((hash, rest)) =>
      Identifier(hash)
      && match SplitOnce(rest, ".")
         case None => false
         case Some((kind, identifier)) => (kind == "save" || kind == "clear") && Identifier(identifier)
  }

  // ---------------------------------------------------------------- splitting

  lemma {:induction false} SplitJoins(text: string, pattern: string)
    ensures SplitOnce(text, pattern).Some? ==>
              text == SplitOnce(text, pattern).value.0 + pattern + SplitOnce(text, pattern).value.1
  {
    if |text| < |pattern| || text[..|pattern|] == pattern || text == "" {
    } else {
      SplitJoins(text[1..], pattern);
      assert text == [text[0]] + text[1..];
    }
  }

  /** A part without the pattern's first character comes off whole. */
  lemma {:induction false} SplitAfter(before: string, pattern: string, after: string)
    requires pattern != "" && pattern[0] !in before
    ensures SplitOnce(before + pattern + after, pattern) == Some((before, after))
  {
    var text := before + pattern + after;
    if before == "" {
      assert text[..|pattern|] == pattern && text[|pattern|..] == after;
    } else {
      assert text[0] == before[0] && before[0] in before;
      assert text[..|pattern|][0] != pattern[0];
      assert text[1..] == before[1..] + pattern + after;
      SplitAfter(before[1..], pattern, after);
      assert before == [before[0]] + before[1..];
    }
  }

  lemma IdentifierHasNoDot(text: string)
    requires Identifier(text)
    ensures '.' !in text
  {
  }

  lemma PartsJoin(a: string, b: string, c: string, d: string, e: string, f: string)
    ensures a + (b + c) + (d + e + f) == a + b + c + d + e + f
  {
  }

  // ---------------------------------------------------------------- what is recognised

  /** The parts that the recogniser finds in a name. */
  lemma OwnedParts(name: string, suffix: string)
    returns (hash: string, kind: StagingKind, identifier: string)
    requires IsOwnedTemporaryFilename(name, suffix)
    ensures Identifier(hash) && Identifier(identifier)
    ensures name == hash + (suffix + STAGING_MARK) + (KindName(kind) + "." + identifier)
  {
    SplitJoins(name, suffix + STAGING_MARK);
    var parts := SplitOnce(name, suffix + STAGING_MARK).value;
    SplitJoins(parts.1, ".");
    var rest := SplitOnce(parts.1, ".").value;
    hash, identifier := parts.0, rest.1;
    kind := if rest.0 == "save" then SaveStaging else ClearStaging;
  }

  lemma OwnedNamesAreStagingNames(name: string, suffix: string)
    requires IsOwnedTemporaryFilename(name, suffix)
    ensures exists hash, kind, identifier ::
              Identifier(hash) && Identifier(identifier) && name == StagingName(hash, suffix, kind, identifier)
  {
    var hash, kind, identifier := OwnedParts(name, suffix);
    PartsJoin(hash, suffix, STAGING_MARK, KindName(kind), ".", identifier);
    assert name == StagingName(hash, suffix, kind, identifier);
  }

  lemma StagingNamesAreOwned(hash: string, suffix: string, kind: StagingKind, identifier: string)
    requires ValidSuffix(suffix) && Identifier(hash) && Identifier(identifier)
    ensures IsOwnedTemporaryFilename(StagingName(hash, suffix, kind, identifier), suffix)
  {
    var rest := KindName(kind) + "." + identifier;
    IdentifierHasNoDot(hash);
    SplitAfter(hash, suffix + STAGING_MARK, rest);
    PartsJoin(hash, suffix, STAGING_MARK, KindName(kind), ".", identifier);
    SplitAfter(KindName(kind), ".", identifier);
  }

  /** The recogniser is exact: it accepts precisely the names that staging can have. */
  lemma RecogniserIsExact(name: string, suffix: string)
    requires ValidSuffix(suffix)
    ensures IsOwnedTemporaryFilename(name, suffix) <==>
              exists hash, kind, identifier ::
                Identifier(hash) && Identifier(identifier) && name == StagingName(hash, suffix, kind, identifier)
  {
    if IsOwnedTemporaryFilename(name, suffix) {
      OwnedNamesAreStagingNames(name, suffix);
    }
    if hash, kind, identifier :| Identifier(hash) && Identifier(identifier)
                                 && name == StagingName(hash, suffix, kind, identifier) {
      StagingNamesAreOwned(hash, suffix, kind, identifier);
    }
  }

  // ---------------------------------------------------------------- what is never recognised

  function Dots(text: string): nat {
    if text == "" then 0 else Dots(text[..|text| - 1]) + (if text[|text| - 1] == '.' then 1 else 0)
  }

  lemma {:induction false} DotsAdd(a: string, b: string)
    ensures Dots(a + b) == Dots(a) + Dots(b)
  {
    if b == "" {
      assert a + b == a;
    } else {
      assert (a + b)[..|a + b| - 1] == a + b[..|b| - 1];
      DotsAdd(a, b[..|b| - 1]);
    }
  }

  lemma {:induction false} NoDots(text: string)
    requires '.' !in text
    ensures Dots(text) == 0
  {
    if text != "" {
      NoDots(text[..|text| - 1]);
    }
  }

  lemma SuffixHasOneDot(suffix: string)
    requires ValidSuffix(suffix)
    ensures Dots(suffix) == 1 && '.' !in suffix[1..]
  {
    assert suffix == "." + suffix[1..];
    DotsAdd(".", suffix[1..]);
    NoDots(suffix[1..]);
    assert Dots(".") == 1 by {
      assert "."[..0] == "";
    }
  }

  lemma MarksHaveTwoDots()
    ensures Dots(STAGING_MARK) == 2 && Dots(QUARANTINE_MARK) == 2 && Dots(".") == 1
  {
    assert Dots(".") == 1 by {
      assert "."[..0] == "";
    }
    NoDots("tmp-v1");
    NoDots("quarantine-v1");
    DotsAdd(".", "tmp-v1");
    DotsAdd("." + "tmp-v1", ".");
    DotsAdd(".", "quarantine-v1");
    DotsAdd("." + "quarantine-v1", ".");
    assert "." + "tmp-v1" + "." == STAGING_MARK;
    assert "." + "quarantine-v1" + "." == QUARANTINE_MARK;
  }

  lemma StagingNameHasFourDots(hash: string, suffix: string, kind: StagingKind, identifier: string)
    requires ValidSuffix(suffix) && Identifier(hash) && Identifier(identifier)
    ensures Dots(StagingName(hash, suffix, kind, identifier)) == 4
  {
    SuffixHasOneDot(suffix);
    MarksHaveTwoDots();
    NoDots(hash);
    NoDots(identifier);
    NoDots(KindName(kind));
    DotsAdd(hash, suffix);
    DotsAdd(hash + suffix, STAGING_MARK);
    DotsAdd(hash + suffix + STAGING_MARK, KindName(kind));
    DotsAdd(hash + suffix + STAGING_MARK + KindName(kind), ".");
    DotsAdd(hash + suffix + STAGING_MARK + KindName(kind) + ".", identifier);
  }

  lemma OwnedNameHasFourDots(name: string, suffix: string)
    requires ValidSuffix(suffix) && IsOwnedTemporaryFilename(name, suffix)
    ensures Dots(name) == 4
  {
    OwnedNamesAreStagingNames(name, suffix);
    var hash, kind, identifier :| Identifier(hash) && Identifier(identifier)
                                  && name == StagingName(hash, suffix, kind, identifier);
    StagingNameHasFourDots(hash, suffix, kind, identifier);
  }

  /** A store never takes a canonical file for a staging file, neither its own nor that of a store with
      another suffix in the same directory. */
  lemma CanonicalNamesAreNotOwned(hash: string, other: string, suffix: string)
    requires ValidSuffix(suffix) && ValidSuffix(other) && Identifier(hash)
    ensures !IsOwnedTemporaryFilename(CanonicalName(hash, other), suffix)
  {
    SuffixHasOneDot(other);
    NoDots(hash);
    DotsAdd(hash, other);
    if IsOwnedTemporaryFilename(CanonicalName(hash, other), suffix) {
      OwnedNameHasFourDots(CanonicalName(hash, other), suffix);
    }
  }

  /** Nor does it take a quarantined file for one. */
  lemma QuarantineNamesAreNotOwned(hash: string, other: string, identifier: string, suffix: string)
    requires ValidSuffix(suffix) && ValidSuffix(other) && Identifier(hash) && Identifier(identifier)
    ensures !IsOwnedTemporaryFilename(QuarantineName(hash, other, identifier), suffix)
  {
    SuffixHasOneDot(other);
    MarksHaveTwoDots();
    NoDots(hash);
    NoDots(identifier);
    DotsAdd(hash, other);
    DotsAdd(hash + other, QUARANTINE_MARK);
    DotsAdd(hash + other + QUARANTINE_MARK, identifier);
    if IsOwnedTemporaryFilename(QuarantineName(hash, other, identifier), suffix) {
      OwnedNameHasFourDots(QuarantineName(hash, other, identifier), suffix);
    }
  }

  /** The suffix stands at the beginning of the text, and is followed by a dot or by nothing. */
  predicate Leads(suffix: string, text: string) {
    suffix <= text && (|text| > |suffix| ==> text[|suffix|] == '.')
  }

  /** Which suffix leads a text can be told from the text. */
  lemma LeadingSuffixIsDetermined(a: string, b: string, text: string)
    requires ValidSuffix(a) && ValidSuffix(b) && Leads(a, text) && Leads(b, text)
    ensures a == b
  {
    SuffixHasOneDot(a);
    SuffixHasOneDot(b);
    assert text[..|a|] == a && text[..|b|] == b;
  }

  lemma OwnedTail(name: string, suffix: string) returns (tail: string)
    requires IsOwnedTemporaryFilename(name, suffix)
    ensures |name| >= IDENTIFIER_LEN && name[IDENTIFIER_LEN..] == suffix + STAGING_MARK + tail
  {
    var (hash, rest) := SplitOnce(name, suffix + STAGING_MARK).value;
    SplitJoins(name, suffix + STAGING_MARK);
    tail := rest;
  }

  /** A staging file belongs to one suffix only: stores that share a directory leave each other's
      staging files alone. */
  lemma OwnedByOneSuffix(name: string, a: string, b: string)
    requires ValidSuffix(a) && ValidSuffix(b)
    requires IsOwnedTemporaryFilename(name, a) && IsOwnedTemporaryFilename(name, b)
    ensures a == b
  {
    var x := OwnedTail(name, a);
    var y := OwnedTail(name, b);
    LeadingSuffixIsDetermined(a, b, name[IDENTIFIER_LEN..]);
  }

  /** The operations recover the key's hash from its canonical path. */
  lemma {:induction false} StemOf(hash: string, tail: string)
    requires '.' !in tail
    ensures FileStem(hash + "." + tail) == hash
  {
    var name := hash + "." + tail;
    assert name[|hash|] == '.';
    if tail == "" {
      assert name[..|name| - 1] == hash;
    } else {
      assert name[..|name| - 1] == hash + "." + tail[..|tail| - 1];
      assert name[|name| - 1] == tail[|tail| - 1];
      StemOf(hash, tail[..|tail| - 1]);
    }
  }

  lemma StemOfCanonicalName(hash: string, suffix: string)
    requires ValidSuffix(suffix)
    ensures FileStem(CanonicalName(hash, suffix)) == hash
  {
    SuffixHasOneDot(suffix);
    assert hash + suffix == hash + "." + suffix[1..];
    StemOf(hash, suffix[1..]);
  }

  // ---------------------------------------------------------------- the names of one key

  predicate StagingOf(name: string, hash: string, suffix: string) {
    IsOwnedTemporaryFilename(name, suffix) && hash <= name
  }

  predicate QuarantineOf(name: string, hash: string, suffix: string) {
    var head := hash + suffix + QUARANTINE_MARK;
    head <= name && Identifier(name[|head|..])
  }

  /** The name is one that operations on the key may use. */
  predicate NameOf(name: string, hash: string, suffix: string) {
    || name == CanonicalName(hash, suffix)
    || StagingOf(name, hash, suffix)
    || QuarantineOf(name, hash, suffix)
  }

  lemma StagingNamesAreOfTheKey(hash: string, suffix: string, kind: StagingKind, identifier: string)
    requires ValidSuffix(suffix) && Identifier(hash) && Identifier(identifier)
    ensures StagingOf(StagingName(hash, suffix, kind, identifier), hash, suffix)
  {
    StagingNamesAreOwned(hash, suffix, kind, identifier);
    assert StagingName(hash, suffix, kind, identifier)[..IDENTIFIER_LEN] == hash;
  }

  lemma QuarantineNamesAreOfTheKey(hash: string, suffix: string, identifier: string)
    requires Identifier(identifier)
    ensures QuarantineOf(QuarantineName(hash, suffix, identifier), hash, suffix)
  {
    var head := hash + suffix + QUARANTINE_MARK;
    assert QuarantineName(hash, suffix, identifier)[|head|..] == identifier;
  }

  lemma StagingOfIsAStagingName(name: string, hash: string, suffix: string)
    requires Identifier(hash) && StagingOf(name, hash, suffix)
    ensures exists kind, identifier :: Identifier(identifier) && name == StagingName(hash, suffix, kind, identifier)
  {
    OwnedNamesAreStagingNames(name, suffix);
    var other, kind, identifier :| Identifier(other) && Identifier(identifier)
                                   && name == StagingName(other, suffix, kind, identifier);
    assert other == name[..IDENTIFIER_LEN] == hash;
  }

  /** The names of a key are exactly its canonical name and its staging and quarantine names. */
  lemma NamesAreExact(name: string, hash: string, suffix: string)
    requires ValidSuffix(suffix) && Identifier(hash)
    ensures NameOf(name, hash, suffix) <==>
              || name == CanonicalName(hash, suffix)
              || (exists kind, identifier ::
                    Identifier(identifier) && name == StagingName(hash, suffix, kind, identifier))
              || (exists identifier :: Identifier(identifier) && name == QuarantineName(hash, suffix, identifier))
  {
    if StagingOf(name, hash, suffix) {
      StagingOfIsAStagingName(name, hash, suffix);
    }
    if kind, identifier :| Identifier(identifier) && name == StagingName(hash, suffix, kind, identifier) {
      StagingNamesAreOfTheKey(hash, suffix, kind, identifier);
    }
    if QuarantineOf(name, hash, suffix) {
      var head := hash + suffix + QUARANTINE_MARK;
      assert name == QuarantineName(hash, suffix, name[|head|..]);
    }
    if identifier :| Identifier(identifier) && name == QuarantineName(hash, suffix, identifier) {
      QuarantineNamesAreOfTheKey(hash, suffix, identifier);
    }
  }

  /** Every name of a key begins with the key's hash, and then with the suffix. */
  lemma NamesLeadWithHashAndSuffix(name: string, hash: string, suffix: string)
    requires ValidSuffix(suffix) && Identifier(hash) && NameOf(name, hash, suffix)
    ensures |name| >= IDENTIFIER_LEN && name[..IDENTIFIER_LEN] == hash && Leads(suffix, name[IDENTIFIER_LEN..])
  {
    if StagingOf(name, hash, suffix) {
      var tail := OwnedTail(name, suffix);
    } else {
      assert name[IDENTIFIER_LEN..IDENTIFIER_LEN + |suffix|] == suffix;
    }
  }

  /** No name belongs to two keys, nor to two stores with different suffixes. */
  lemma NamesBelongToOneKey(name: string, hash: string, suffix: string, otherHash: string, otherSuffix: string)
    requires ValidSuffix(suffix) && Identifier(hash) && NameOf(name, hash, suffix)
    requires ValidSuffix(otherSuffix) && Identifier(otherHash) && NameOf(name, otherHash, otherSuffix)
    ensures hash == otherHash && suffix == otherSuffix
  {
    NamesLeadWithHashAndSuffix(name, hash, suffix);
    NamesLeadWithHashAndSuffix(name, otherHash, otherSuffix);
    LeadingSuffixIsDetermined(suffix, otherSuffix, name[IDENTIFIER_LEN..]);
  }

  /** Canonical, staging and quarantine names never coincide, whatever keys, suffixes and identifiers
      they are made of. */
  lemma NamesAreApart(
      hash: string, suffix: string, kind: StagingKind, identifier: string,
      otherHash: string, otherSuffix: string, otherIdentifier: string)
    requires ValidSuffix(suffix) && Identifier(hash) && Identifier(identifier)
    requires ValidSuffix(otherSuffix) && Identifier(otherHash) && Identifier(otherIdentifier)
    ensures CanonicalName(otherHash, otherSuffix) != StagingName(hash, suffix, kind, identifier)
    ensures CanonicalName(otherHash, otherSuffix) != QuarantineName(hash, suffix, identifier)
    ensures StagingName(hash, suffix, kind, identifier) != QuarantineName(otherHash, otherSuffix, otherIdentifier)
  {
    StagingNamesAreOwned(hash, suffix, kind, identifier);
    CanonicalNamesAreNotOwned(otherHash, otherSuffix, suffix);
    QuarantineNamesAreNotOwned(otherHash, otherSuffix, otherIdentifier, suffix);
    var canonical := CanonicalName(otherHash, otherSuffix);
    if canonical == QuarantineName(hash, suffix, identifier) {
      QuarantineNamesAreOfTheKey(hash, suffix, identifier);
      NamesBelongToOneKey(canonical, hash, suffix, otherHash, otherSuffix);
    }
  }

  /** Two staging names coincide only if they are made of the same parts; so do two quarantine names. */
  lemma NamesAreInjective(
      hash: string, suffix: string, kind: StagingKind, identifier: string,
      otherHash: string, otherSuffix: string, otherKind: StagingKind, otherIdentifier: string)
    requires ValidSuffix(suffix) && Identifier(hash) && Identifier(identifier)
    requires ValidSuffix(otherSuffix) && Identifier(otherHash) && Identifier(otherIdentifier)
    ensures StagingName(hash, suffix, kind, identifier)
              == StagingName(otherHash, otherSuffix, otherKind, otherIdentifier) ==>
              hash == otherHash && suffix == otherSuffix && kind == otherKind && identifier == otherIdentifier
    ensures QuarantineName(hash, suffix, identifier) == QuarantineName(otherHash, otherSuffix, otherIdentifier) ==>
              hash == otherHash && suffix == otherSuffix && identifier == otherIdentifier
  {
    var staging, quarantine := StagingName(hash, suffix, kind, identifier), QuarantineName(hash, suffix, identifier);
    if staging == StagingName(otherHash, otherSuffix, otherKind, otherIdentifier) {
      StagingNamesAreOfTheKey(hash, suffix, kind, identifier);
      StagingNamesAreOfTheKey(otherHash, otherSuffix, otherKind, otherIdentifier);
      NamesBelongToOneKey(staging, hash, suffix, otherHash, otherSuffix);
      LastPart(hash + suffix + STAGING_MARK + KindName(kind) + ".", identifier,
               hash + suffix + STAGING_MARK + KindName(otherKind) + ".", otherIdentifier);
      var head := hash + suffix + STAGING_MARK;
      LastPart(head, KindName(kind) + ".", head, KindName(otherKind) + ".");
      assert (KindName(kind) + ".")[0] == (KindName(otherKind) + ".")[0];
    }
    if quarantine == QuarantineName(otherHash, otherSuffix, otherIdentifier) {
      QuarantineNamesAreOfTheKey(hash, suffix, identifier);
      QuarantineNamesAreOfTheKey(otherHash, otherSuffix, otherIdentifier);
      NamesBelongToOneKey(quarantine, hash, suffix, otherHash, otherSuffix);
      LastPart(hash + suffix + QUARANTINE_MARK, identifier, hash + suffix + QUARANTINE_MARK, otherIdentifier);
    }
  }

  /** Equal texts with equally long ends have equal parts. */
  lemma LastPart(a: string, x: string, b: string, y: string)
    requires a + x == b + y && (|x| == |y| || |a| == |b|)
    ensures a == b && x == y
  {
    assert |a| == |b|;
    assert a == (a + x)[..|a|] && b == (b + y)[..|b|];
    assert x == (a + x)[|a|..] && y == (b + y)[|b|..];
  }
}
