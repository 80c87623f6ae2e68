# qremiser record construction, modelled in Dafny

qremiser characterises an uploaded file and returns a qremis
preservation-metadata record for it. The record has three parts. The
**object** carries the file's identifier, its size, its fixities (content
digests) and its format guesses. The **event** records that the description
was made. The **relationship** links the two. This project models the
record-construction code in `qremiser/blueprint/lib.py` and proves what it
guarantees.

- `Checksums` (checksums.dfy) models `produce_checksums`. It is imperative,
  like the source. A `Reader` class is the open file. A `Hasher` class is an
  incremental hash object whose state is the input fed to it so far. The read
  loop (`FeedFile`, with the inner `for x in hashers` loop as `FeedAll`) is
  proved to feed every hasher exactly the file's remaining bytes, in order,
  whatever sizes the reads return. The dict comprehension (`CollectDigests`)
  is proved equal to a value-level specification, `Dicts.FromPairs`.
- `Dicts` (dicts.dfy) is a Python `dict` as an insertion order plus a map.
  The fixity order depends on dict order, so the model keeps it. Lemmas
  prove that each distinct name is one key, that keys keep the order of
  their first insertion, and that a later value for a repeated name wins.
- `Qremis` (qremis.dfy) models `_build_fixitys`, `_detect_mime`,
  `_build_formats`, `_build_objectCharacteristics` and `make_record`. The
  pyqremis entities are datatypes. `make_record` changes the object and the
  relationship after building them; the model writes those steps as value
  updates inside the `MakeRecord` method.
- `Decimal` (decimal.dfy) is `str()` of the byte count, proved to read back
  as that count.
- `Wrappers` (wrappers.dfy) is `Option`, which stands for Python's `None`.

Foreign pieces become parameters (the `Qremis.Collaborators` datatype):

- each hash algorithm is a function from the complete input to its hex
  digest;
- libmagic's `from_file(..., mime=True)` is a function of the file's bytes
  returning an optional MIME type;
- `mimetypes.guess_type(name)[0]` is a function of the name returning an
  optional type.

The `uuid4().hex` values and `datetime.now().isoformat()` are passed into
`MakeRecord` as strings. The file is its byte sequence.

The read loop asks for `buf` bytes first and then calls `f.read()` with no
size. The model treats `f.read()` as Python's `read(-1)`. `Reader.Read` may
return any non-empty prefix of what remains, bounded by `size` when `size`
is positive. So the proved property holds for every chunking, not only the
one CPython's buffered reader produces. With `buf == 0` the first read is
empty, the loop never runs, and the hashers are fed nothing. The model keeps
that case; `_build_fixitys` relies on the default `buf` of 8192.

The file is read in one `buf`-sized chunk, then the whole remainder
(lib.py:19, 23). A fixity is dropped only when its hex digest is the string
`'None'` (lib.py:109); no algorithm is skipped for being unavailable.

## Model

| member | source | states |
|---|---|---|
| `Checksums.Reader.constructor` | qremiser/blueprint/lib.py:106 | opening the file gives a reader at position 0 over the file's bytes |
| `Checksums.Reader.Read` | qremiser/blueprint/lib.py:19-23 | `f.read(size)` returns a prefix of the unread bytes and advances past it; the chunk is empty exactly at end of file or when 0 bytes are asked for; a positive size bounds it |
| `Checksums.Hasher.constructor` | qremiser/blueprint/lib.py:105 | a new hasher has its name and algorithm and has been fed nothing |
| `Checksums.Hasher.Update` | qremiser/blueprint/lib.py:22 | `update(data)` appends `data` to everything the hasher has been fed |
| `Checksums.FeedAll` | qremiser/blueprint/lib.py:21-22 | every hasher in the list is fed the chunk once, whatever it held before |
| `Checksums.FeedFile` | qremiser/blueprint/lib.py:18-23 | the read loop ends; unless `buf` is 0, the file is read to its end and every hasher's input grew by exactly the bytes that remained, in order, for any chunk sizes; an empty remainder adds nothing |
| `Checksums.CollectDigests` | qremiser/blueprint/lib.py:24 | the dict comprehension equals `FromPairs` of the names and hex digests: one key per distinct hasher name, in first-appearance order, and a later hasher's digest wins |
| `Checksums.ProduceChecksums` | qremiser/blueprint/lib.py:18-24 | the whole function: every hasher has been fed the unread bytes, and the returned dict is `FromPairs` of the hashers' names and their digests over that input |
| `Checksums.Hasher.HexDigest` | qremiser/blueprint/lib.py:24 | `hexdigest()` is the hasher's algorithm applied to everything fed so far |
| `Dicts.Put` | qremiser/blueprint/lib.py:24 | `d[k] = v`: an existing key keeps its place, a new key goes last; `k` then maps to `v` and every other key keeps its value |
| `Dicts.FromPairs` | qremiser/blueprint/lib.py:24 | the dict the comprehension produces: the name/digest pairs stored in order with `Put` |
| `Dicts.PutKeepsValid` | qremiser/blueprint/lib.py:24 | storing into a dict keeps each key once and keeps the earlier keys' order; a new key goes last |
| `Dicts.FirstOccurrences` | qremiser/blueprint/lib.py:24 | the distinct names in first-appearance order have no repeats and hold exactly the names that occur |
| `Dicts.FirstOccurrencesOfDistinct` | qremiser/blueprint/lib.py:105 | helper of `Qremis.ExpectedChecksums`: a sequence without repeats is its own first-occurrence list, `FirstOccurrences(s) == s` |
| `Dicts.FromPairsValid` | qremiser/blueprint/lib.py:24 | the dict built from name/digest pairs is well formed |
| `Dicts.FromPairsOrder` | qremiser/blueprint/lib.py:24 | its keys are the distinct names in order of first appearance |
| `Dicts.FromPairsKeys` | qremiser/blueprint/lib.py:24 | its keys are exactly the names given |
| `Dicts.FromPairsLastWins` | qremiser/blueprint/lib.py:24 | a name's value is the digest of the last hasher with that name |
| `Qremis.NewHashers` | qremiser/blueprint/lib.py:105 | four fresh, distinct hashers named md5, sha256, crc32 and adler32 with their algorithms, fed nothing |
| `Qremis.ExpectedChecksums` | qremiser/blueprint/lib.py:105-107 | the checksum dict for the four hashers has keys md5, sha256, crc32 and adler32 in that order, each mapped to that algorithm's digest of the whole file |
| `Qremis.Fixities` | qremiser/blueprint/lib.py:108-109 | the fixity list is no longer than the key list and never holds the digest `'None'` |
| `Qremis.FixitiesMembership` | qremiser/blueprint/lib.py:108-109 | a fixity appears exactly when its algorithm is a key whose digest is not `'None'`, and it carries that key's own digest |
| `Qremis.FixitiesFollowKeyOrder` | qremiser/blueprint/lib.py:108 | the fixities' algorithms are a subsequence of the dict's keys, so they keep the dict's order |
| `Qremis.SubsequenceDropFirst` | qremiser/blueprint/lib.py:108 | helper of `Qremis.FixitiesFollowKeyOrder`: dropping the first element of a subsequence leaves a subsequence |
| `Qremis.FixitiesKeepAll` | qremiser/blueprint/lib.py:108-109 | when no digest is `'None'`, there is one fixity per key, in key order, with that key's digest |
| `Qremis.AllFourFixities` | qremiser/blueprint/lib.py:104-109 | when no algorithm reports `'None'`, the fixities are md5, sha256, crc32 and adler32 in that order, each the digest of the whole file |
| `Qremis.BuildFixities` | qremiser/blueprint/lib.py:104-109 | `_build_fixitys` returns the fixities of the expected checksum dict: a single pass feeds all four hashers the whole file, whatever the chunking |
| `Qremis.DetectMime` | qremiser/blueprint/lib.py:27-32 | the content guess is libmagic's answer for the bytes; the name guess is absent without an original name, otherwise the name's guess |
| `Qremis.FormatsFor` | qremiser/blueprint/lib.py:112-135 | at most two formats: one per guess present, the magic-number entry first and the extension entry last, each with its own fixed note, and the two notes differ |
| `Qremis.FormatsForProvenance` | qremiser/blueprint/lib.py:115-133 | every format entry's note names the guess it came from, and its name is that guess |
| `Qremis.BuildFormats` | qremiser/blueprint/lib.py:112-135 | `_build_formats` returns `FormatsFor` of the two guesses; with no original name it returns at most one entry |
| `Qremis.BuildObjectCharacteristics` | qremiser/blueprint/lib.py:93-101 | the size is the decimal text of the byte count and reads back as that count; the fixities and formats are those above |
| `Qremis.MakeRecord` | qremiser/blueprint/lib.py:35-90 | a supplied object identifier is used unchanged, otherwise it is `('uuid', fresh value)`; `originalName` is set exactly when given; the relationship links exactly the object's and the event's identifiers; the fixed type, subtype, outcome, detail and note strings are as in the source |
| `Decimal.DecimalString` | qremiser/blueprint/lib.py:95 | `str(size)` is a non-empty string of digits with no leading zero except for `"0"` |
| `Decimal.DecimalRoundTrip` | qremiser/blueprint/lib.py:95 | reading the size string back gives the byte count |
| `Decimal.DecimalStringInjective` | qremiser/blueprint/lib.py:95 | different byte counts give different size strings |

## Left out

- The real MD5 (RFC 1321), SHA-256 (FIPS 180-4), CRC32 and Adler-32 algorithms. They come from `hashlib` and the `nothashes` package, and `nothashes` is not part of this model. Each is an opaque function of the whole input, so the known digests of empty input are not stated.
- The names the `nothashes` hashers report are taken to be `"crc32"` and `"adler32"`.
- libmagic's signature table and the `mimetypes` extension table. They are opaque optional-string functions.
- Uniqueness and randomness of `uuid4()` identifiers. They cannot be proved, so the values are inputs. Two records built from the same file therefore have the same fixities, but different identifiers are not proved.
- The format of `datetime.now().isoformat()`. The timestamp is an input string.
- File-system errors. A missing or unreadable file raises in `getsize` or `open`; the model's file is always a readable byte sequence. It also assumes the file does not change between the size check and the read.
- pyqremis's object construction, its `to_dict` serialization and its wire field names. A pyqremis object keeps a list of identifiers, and `make_record` reads the first; the model keeps exactly that one identifier.
- The Flask endpoint, request parsing, the temporary directory, logging and configuration (`qremiser/blueprint/__init__.py`, `qremiser/__init__.py`), and packaging (`setup.py`).
- Python dicts keep insertion order only from Python 3.7, and the package declares no minimum Python version. The model assumes that order, on which the order of the fixities rests.
- The `md5` form argument. The endpoint parses it and never checks it, so the model does not verify it.
- `Checksums.Reader.Read`: for a regular file, CPython's `f.read()` returns the whole remainder. The model allows any non-empty prefix, so the read-loop properties hold for every chunking.
