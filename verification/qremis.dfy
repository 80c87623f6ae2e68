/**
 * Building one qremis record for a file: its fixities, its format guesses
 * and the object, event and relationship that describe it.
 *
 * The foreign pieces are parameters. Each hash algorithm is a function from
 * the complete input to its hex digest, libmagic's MIME sniffing is a
 * function of the file's bytes, and `mimetypes.guess_type` is a function of
 * the original file name. Fresh `uuid4().hex` values and the current
 * timestamp are passed in as strings.
 */
module Qremis {

  import opened Wrappers
  import opened Dicts
  import opened Decimal
  import opened Checksums

  datatype Identifier = Identifier(idType: string, value: string)

  datatype Fixity = Fixity(messageDigestAlgorithm: string, messageDigest: string)

  datatype Format = Format(formatName: string, formatNote: string)

  datatype ObjectCharacteristics = ObjectCharacteristics(
    size: string,
    fixities: seq<Fixity>,
    formats: seq<Format>)

  datatype Object = Object(
    identifier: Identifier,
    characteristics: ObjectCharacteristics,
    objectCategory: string,
    originalName: Option<string>)

  datatype Event = Event(
    identifier: Identifier,
    eventType: string,
    eventDateTime: string,
    eventOutcome: string,
    eventDetail: string)

  datatype Relationship = Relationship(
    identifier: Identifier,
    relationshipType: string,
    relationshipSubType: string,
    linkingObjectIdentifiers: seq<Identifier>,
    linkingEventIdentifiers: seq<Identifier>,
    relationshipNotes: seq<string>)

  datatype Record = Record(obj: Object, event: Event, relationship: Relationship)

  /** The foreign libraries the record builder consults. */
  datatype Collaborators = Collaborators(
    md5: seq<byte> -> string,
    sha256: seq<byte> -> string,
    crc32: seq<byte> -> string,
    adler32: seq<byte> -> string,
    fromFile: seq<byte> -> Option<string>,
    guessType: string -> Option<string>)

  /** The hasher names, in the order the hashers are created. */
  const HasherNames: seq<string> := ["md5", "sha256", "crc32", "adler32"]

  /** The digest string a hasher reports when it has no digest to give. */
  const NoDigest := "None"

  /** The first read of the file asks for this many bytes. */
  const ChunkSize := 8192

  const MagicNote := "From magic number (python3 magic.from_file)"
  const ExtensionNote := "From file extension (python3 mimetypes.guess_type)"
  const EventDetail := "Initial qremis record created"
  const RelationshipNote := "Link between object and original description event"

  // ---------------------------------------------------------------- fixity

  /** What each of the four algorithms reports over the whole file, in hasher order. */
  function DigestList(content: seq<byte>, env: Collaborators): (digests: seq<string>)
    ensures |digests| == |HasherNames|
  {
    [env.md5(content), env.sha256(content), env.crc32(content), env.adler32(content)]
  }

  /** The dict `produce_checksums` returns for the four hashers over `content`. */
  function ExpectedChecksums(content: seq<byte>, env: Collaborators): (d: Dict)
    ensures Valid(d)
    ensures d.order == HasherNames
    ensures d.entries["md5"] == env.md5(content) && d.entries["sha256"] == env.sha256(content)
    ensures d.entries["crc32"] == env.crc32(content) && d.entries["adler32"] == env.adler32(content)
  {
    var digests := DigestList(content, env);
    FromPairsValid(HasherNames, digests);
    FromPairsOrder(HasherNames, digests);
    FirstOccurrencesOfDistinct(HasherNames);
    FromPairsLastWins(HasherNames, digests, 0);
    FromPairsLastWins(HasherNames, digests, 1);
    FromPairsLastWins(HasherNames, digests, 2);
    FromPairsLastWins(HasherNames, digests, 3);
    FromPairs(HasherNames, digests)
  }

  /**
   * `[Fixity(x, checksums[x]) for x in checksums if checksums[x] != 'None']`
   * with the dict's keys taken in their order `keys`.
   */
  function Fixities(keys: seq<string>, checksums: map<string, string>): (r: seq<Fixity>)
    requires forall k :: k in keys ==> k in checksums
    ensures |r| <= |keys|
    ensures forall i :: 0 <= i < |r| ==> r[i].messageDigest != NoDigest
  {
    if keys == [] then []
    else
      var rest := Fixities(keys[1..], checksums);
      var k := keys[0];
      if checksums[k] != NoDigest then [Fixity(k, checksums[k])] + rest else rest
  }

  /**
   * A key yields a fixity exactly when its digest is not the string
   * 'None', and each fixity pairs a key with that key's own digest.
   */
  lemma {:induction false} FixitiesMembership(keys: seq<string>, checksums: map<string, string>, x: Fixity)
    requires forall k :: k in keys ==> k in checksums
    ensures x in Fixities(keys, checksums) <==>
              x.messageDigestAlgorithm in keys
              && x.messageDigest == checksums[x.messageDigestAlgorithm]
              && x.messageDigest != NoDigest
  {
    if keys != [] {
      FixitiesMembership(keys[1..], checksums, x);
      assert keys == [keys[0]] + keys[1..];
    }
  }

  /** The digest algorithm names of `r`, in order. */
  function Algorithms(r: seq<Fixity>): (names: seq<string>)
    ensures |names| == |r|
  {
    if r == [] then [] else [r[0].messageDigestAlgorithm] + Algorithms(r[1..])
  }

  /** `a` is what remains of `b` after deleting some of its elements. */
  predicate IsSubsequence(a: seq<string>, b: seq<string>)
    decreases |b|
  {
    if a == [] then true
    else if b == [] then false
    else if a[0] == b[0] then IsSubsequence(a[1..], b[1..])
    else IsSubsequence(a, b[1..])
  }

  /** Deleting the first element of a subsequence leaves a subsequence. */
  lemma {:induction false} SubsequenceDropFirst(a: seq<string>, b: seq<string>)
    requires a != [] && IsSubsequence(a, b)
    ensures IsSubsequence(a[1..], b)
    decreases |b|
  {
    if a[1..] != [] && b != [] {
      if a[0] == b[0] {
        if a[1] == b[0] {
          SubsequenceDropFirst(a[1..], b[1..]);
        }
      } else {
        SubsequenceDropFirst(a, b[1..]);
        if a[1] == b[0] {
          SubsequenceDropFirst(a[1..], b[1..]);
        }
      }
    }
  }

  /** The fixities follow the dict's key order: their algorithms are a subsequence of the keys. */
  lemma {:induction false} FixitiesFollowKeyOrder(keys: seq<string>, checksums: map<string, string>)
    requires forall k :: k in keys ==> k in checksums
    ensures IsSubsequence(Algorithms(Fixities(keys, checksums)), keys)
  {
    if keys != [] {
      var rest := Fixities(keys[1..], checksums);
      FixitiesFollowKeyOrder(keys[1..], checksums);
      var a := Algorithms(rest);
      if checksums[keys[0]] != NoDigest {
        var r := [Fixity(keys[0], checksums[keys[0]])] + rest;
        assert r[1..] == rest;
        assert Algorithms(r) == [keys[0]] + a;
        assert ([keys[0]] + a)[1..] == a;
      } else if a != [] && a[0] == keys[0] {
        SubsequenceDropFirst(a, keys[1..]);
      }
    }
  }

  /** When no digest is the string 'None', every key gives a fixity, in key order. */
  lemma {:induction false} FixitiesKeepAll(keys: seq<string>, checksums: map<string, string>)
    requires forall k :: k in keys ==> k in checksums && checksums[k] != NoDigest
    ensures var r := Fixities(keys, checksums);
      |r| == |keys| &&
      forall i :: 0 <= i < |keys| ==> r[i] == Fixity(keys[i], checksums[keys[i]])
  {
    if keys != [] {
      FixitiesKeepAll(keys[1..], checksums);
    }
  }

  /** Four digests equal to the algorithms' outputs are the expected digest list. */
  lemma SameDigests(digests: seq<string>, content: seq<byte>, env: Collaborators)
    requires |digests| == 4
    requires digests[0] == env.md5(content) && digests[1] == env.sha256(content)
    requires digests[2] == env.crc32(content) && digests[3] == env.adler32(content)
    ensures digests == DigestList(content, env)
  {
  }

  /**
   * With no digest reported as 'None', the record lists all four fixities,
   * md5, sha256, crc32 and adler32 in that order, each with its algorithm's
   * digest of the whole file.
   */
  lemma AllFourFixities(content: seq<byte>, env: Collaborators)
    requires NoDigest !in DigestList(content, env)
    ensures var d := ExpectedChecksums(content, env);
      Fixities(d.order, d.entries) == [
        Fixity("md5", env.md5(content)), Fixity("sha256", env.sha256(content)),
        Fixity("crc32", env.crc32(content)), Fixity("adler32", env.adler32(content))]
  {
    var d := ExpectedChecksums(content, env);
    FixitiesKeepAll(d.order, d.entries);
  }

  /**
   * `_build_fixitys`: the file's md5, sha256, crc32 and adler32 digests,
   * computed in one pass, in that order, skipping any reported as 'None'.
   */
  method BuildFixities(content: seq<byte>, env: Collaborators) returns (fixities: seq<Fixity>)
    ensures var d := ExpectedChecksums(content, env);
      fixities == Fixities(d.order, d.entries)
  {
    var hashers := NewHashers(env);
    var f := new Reader(content);
    assert f.Remaining() == content;
    var checksums := ProduceChecksums(f, hashers, ChunkSize);
    assert hashers[0].fed == content && hashers[1].fed == content;
    assert hashers[2].fed == content && hashers[3].fed == content;
    SameDigests(Digests(hashers), content, env);
    assert checksums == ExpectedChecksums(content, env);
    fixities := Fixities(checksums.order, checksums.entries);
  }

  /** `[md5(), sha256(), crc32(), adler32()]`: four fresh hashers that have been fed nothing. */
  method NewHashers(env: Collaborators) returns (hashers: seq<Hasher>)
    ensures Names(hashers) == HasherNames
    ensures forall i :: 0 <= i < |hashers| ==> fresh(hashers[i]) && hashers[i].fed == []
    ensures forall i, j :: 0 <= i < j < |hashers| ==> hashers[i] != hashers[j]
    ensures hashers[0].algorithm == env.md5 && hashers[1].algorithm == env.sha256
    ensures hashers[2].algorithm == env.crc32 && hashers[3].algorithm == env.adler32
  {
    var h0 := new Hasher("md5", env.md5);
    var h1 := new Hasher("sha256", env.sha256);
    var h2 := new Hasher("crc32", env.crc32);
    var h3 := new Hasher("adler32", env.adler32);
    hashers := [h0, h1, h2, h3];
  }

  // ---------------------------------------------------------------- format

  /**
   * `_detect_mime`: the content-sniffed guess, and the name-based guess,
   * which is absent when no original name is given.
   */
  function DetectMime(content: seq<byte>, originalName: Option<string>, env: Collaborators)
    : (guesses: (Option<string>, Option<string>))
    ensures guesses.0 == env.fromFile(content)
    ensures originalName.None? ==> guesses.1.None?
    ensures originalName.Some? ==> guesses.1 == env.guessType(originalName.value)
  {
    var guess := if originalName.Some? then env.guessType(originalName.value) else None;
    (env.fromFile(content), guess)
  }

  function Count<T>(o: Option<T>): nat {
    if o.Some? then 1 else 0
  }

  /**
   * The format entries for a pair of guesses: the magic-number guess first,
   * then the extension guess, each present exactly when its guess is, each
   * carrying its own note.
   */
  function FormatsFor(magic: Option<string>, byName: Option<string>): (r: seq<Format>)
    ensures |r| == Count(magic) + Count(byName) <= 2
    ensures magic.Some? ==> r[0] == Format(magic.value, MagicNote)
    ensures byName.Some? ==> r[|r| - 1] == Format(byName.value, ExtensionNote)
    ensures MagicNote != ExtensionNote
  {
    (if magic.Some? then [Format(magic.value, MagicNote)] else [])
    + (if byName.Some? then [Format(byName.value, ExtensionNote)] else [])
  }

  /** Each entry's note tells which guess it came from. */
  lemma FormatsForProvenance(magic: Option<string>, byName: Option<string>, x: Format)
    requires x in FormatsFor(magic, byName)
    ensures x.formatNote == MagicNote ==> magic == Some(x.formatName)
    ensures x.formatNote == ExtensionNote ==> byName == Some(x.formatName)
    ensures x.formatNote == MagicNote || x.formatNote == ExtensionNote
  {
  }

  /** `_build_formats` */
  method BuildFormats(content: seq<byte>, originalName: Option<string>, env: Collaborators)
    returns (formats: seq<Format>)
    ensures formats == FormatsFor(env.fromFile(content), DetectMime(content, originalName, env).1)
    ensures originalName.None? ==> |formats| <= 1
  {
    formats := [];
    var x := DetectMime(content, originalName, env);
    if x.0 != None {
      formats := formats + [Format(x.0.value, MagicNote)];
    }
    if x.1 != None {
      formats := formats + [Format(x.1.value, ExtensionNote)];
    }
  }

  // ---------------------------------------------------------------- record

  /**
   * `_build_objectCharacteristics`: the size is the decimal text of the
   * file's byte count, with the fixities and formats above.
   */
  method BuildObjectCharacteristics(content: seq<byte>, originalName: Option<string>, env: Collaborators)
    returns (oc: ObjectCharacteristics)
    ensures AllDigits(oc.size) && DecimalValue(oc.size) == |content|
    ensures oc.size == DecimalString(|content|)
    ensures var d := ExpectedChecksums(content, env);
      oc.fixities == Fixities(d.order, d.entries)
    ensures oc.formats == FormatsFor(env.fromFile(content), DetectMime(content, originalName, env).1)
  {
    var fixities := BuildFixities(content, env);
    var size := DecimalString(|content|);
    DecimalRoundTrip(|content|);
    var formats := BuildFormats(content, originalName, env);
    oc := ObjectCharacteristics(size, fixities, formats);
  }

  /**
   * The fixed parts of a record and its links: the relationship points at
   * exactly this record's object and event.
   */
  predicate WellLinked(r: Record) {
    && r.obj.objectCategory == "file"
    && r.event.eventType == "description"
    && r.event.eventOutcome == "success"
    && r.event.eventDetail == EventDetail
    && r.relationship.relationshipType == "link"
    && r.relationship.relationshipSubType == "simple"
    && r.relationship.linkingObjectIdentifiers == [r.obj.identifier]
    && r.relationship.linkingEventIdentifiers == [r.event.identifier]
    && r.relationship.relationshipNotes == [RelationshipNote]
  }

  /**
   * `make_record`. `objectUuid`, `eventUuid` and `relationshipUuid` stand for
   * the `uuid4().hex` values drawn for the object (only when no identifier
   * is supplied), the event and the relationship; `now` for the timestamp.
   */
  method MakeRecord(
    content: seq<byte>, objectIdentifier: Option<Identifier>, originalName: Option<string>,
    env: Collaborators, objectUuid: string, eventUuid: string, relationshipUuid: string, now: string)
    returns (record: Record)
    ensures WellLinked(record)
    ensures record.obj.identifier ==
              if objectIdentifier.Some? then objectIdentifier.value else Identifier("uuid", objectUuid)
    ensures record.obj.originalName == originalName
    ensures record.event.identifier == Identifier("uuid", eventUuid)
    ensures record.event.eventDateTime == now
    ensures record.relationship.identifier == Identifier("uuid", relationshipUuid)
    ensures record.obj.characteristics.size == DecimalString(|content|)
    ensures DecimalValue(record.obj.characteristics.size) == |content|
    ensures var d := ExpectedChecksums(content, env);
      record.obj.characteristics.fixities == Fixities(d.order, d.entries)
    ensures record.obj.characteristics.formats ==
              FormatsFor(env.fromFile(content), DetectMime(content, originalName, env).1)
  {
    var oid := if objectIdentifier.None? then Identifier("uuid", objectUuid) else objectIdentifier.value;
    var characteristics := BuildObjectCharacteristics(content, originalName, env);
    var obj := Object(oid, characteristics, "file", None);
    if originalName.Some? {
      obj := obj.(originalName := originalName);
    }
    var eventIdentifier := Identifier("uuid", eventUuid);
    var event := Event(eventIdentifier, "description", now, "success", EventDetail);
    var relationship := Relationship(Identifier("uuid", relationshipUuid), "link", "simple", [], [], []);
    relationship := relationship.(linkingObjectIdentifiers :=
      relationship.linkingObjectIdentifiers + [obj.identifier]);
    relationship := relationship.(linkingEventIdentifiers :=
      relationship.linkingEventIdentifiers + [event.identifier]);
    relationship := relationship.(relationshipNotes := relationship.relationshipNotes + [RelationshipNote]);
    record := Record(obj, event, relationship);
  }
}
