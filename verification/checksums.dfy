/**
 * Single-pass multi-hasher digesting: the file is read chunk by chunk and
 * every chunk is fed to every hasher before the next read; afterwards one
 * hex digest per hasher name is collected into a dict.
 */
module Checksums {

  import opened Dicts

  newtype byte = b: int | 0 <= b < 256

  /**
   * An open binary file. Reads hand out consecutive pieces of `data`
   * starting at `pos`.
   */
  class Reader {
    const data: seq<byte>
    var pos: nat

    ghost predicate Valid()
      reads this
    {
      pos <= |data|
    }

    /** The bytes not yet read. */
    function Remaining(): seq<byte>
      reads this
      requires Valid()
    {
      data[pos..]
    }

    /** `open(file_path, 'rb')` */
    constructor (data: seq<byte>)
      ensures Valid() && this.data == data && pos == 0
    {
      this.data := data;
      pos := 0;
    }

    /**
     * `f.read(size)`. The chunk is a prefix of what remains; it is empty
     * exactly at end of file or when zero bytes are asked for; a positive
     * `size` bounds its length, a negative one (Python's default for
     * `f.read()`) does not. How many bytes a non-empty read returns is
     * otherwise left open.
     */
    method Read(size: int) returns (chunk: seq<byte>)
      requires Valid()
      modifies this
      ensures Valid()
      ensures pos == old(pos) + |chunk|
      ensures chunk == old(Remaining())[..|chunk|]
      ensures chunk == [] <==> old(pos) == |data| || size == 0
      ensures size > 0 ==> |chunk| <= size
    {
      var available := |data| - pos;
      var n := 0;
      if size != 0 && available > 0 {
        var most := if 0 < size < available then size else available;
        n :| 1 <= n <= most;
      }
      chunk := data[pos..pos + n];
      pos := pos + n;
    }
  }

  /**
   * An incremental hasher (hashlib's md5/sha256 objects and their crc32 and
   * adler32 counterparts). Its state is the whole input fed to it so far;
   * `algorithm` is the hex digest the algorithm computes over a complete
   * input.
   */
  class Hasher {
    const name: string
    const algorithm: seq<byte> -> string
    var fed: seq<byte>

    constructor (name: string, algorithm: seq<byte> -> string)
      ensures this.name == name && this.algorithm == algorithm && fed == []
    {
      this.name := name;
      this.algorithm := algorithm;
      fed := [];
    }

    /** `x.update(data)` */
    method Update(data: seq<byte>)
      modifies this
      ensures fed == old(fed) + data
    {
      fed := fed + data;
    }

    /** `x.hexdigest()` */
    function HexDigest(): string
      reads this
    {
      algorithm(fed)
    }
  }

  function Names(hashers: seq<Hasher>): (names: seq<string>)
    ensures |names| == |hashers|
    ensures forall i :: 0 <= i < |hashers| ==> names[i] == hashers[i].name
  {
    seq(|hashers|, i requires 0 <= i < |hashers| => hashers[i].name)
  }

  /** The digest each hasher would report now. */
  function Digests(hashers: seq<Hasher>): (digests: seq<string>)
    reads hashers
    ensures |digests| == |hashers|
    ensures forall i :: 0 <= i < |hashers| ==> digests[i] == hashers[i].HexDigest()
  {
    seq(|hashers|, i reads hashers requires 0 <= i < |hashers| => hashers[i].HexDigest())
  }

  /**
   * `{x.name: x.hexdigest() for x in hashers}`: one key per distinct name,
   * in order of first appearance; when names repeat, the later hasher's
   * digest wins.
   */
  method CollectDigests(hashers: seq<Hasher>) returns (d: Dict)
    ensures d == FromPairs(Names(hashers), Digests(hashers))
    ensures Valid(d)
    ensures d.order == FirstOccurrences(Names(hashers))
    ensures forall i :: 0 <= i < |hashers| ==> hashers[i].name in d.entries
    ensures forall i :: 0 <= i < |hashers| && LastOccurrence(Names(hashers), i) ==>
              d.entries[hashers[i].name] == hashers[i].HexDigest()
  {
    ghost var names, digests := Names(hashers), Digests(hashers);
    d := Empty;
    var i := 0;
    while i < |hashers|
      invariant 0 <= i <= |hashers|
      invariant d == FromPairs(names[..i], digests[..i])
    {
      assert names[..i + 1][..i] == names[..i];
      assert digests[..i + 1][..i] == digests[..i];
      d := Put(d, hashers[i].name, hashers[i].HexDigest());
      i := i + 1;
    }
    assert names[..i] == names && digests[..i] == digests;
    FromPairsValid(names, digests);
    FromPairsOrder(names, digests);
    FromPairsKeys(names, digests);
    forall i | 0 <= i < |hashers| && LastOccurrence(names, i)
      ensures d.entries[hashers[i].name] == hashers[i].HexDigest()
    {
      FromPairsLastWins(names, digests, i);
    }
  }

  /** `for x in hashers: x.update(data)` */
  method FeedAll(hashers: seq<Hasher>, data: seq<byte>)
    requires forall i, j :: 0 <= i < j < |hashers| ==> hashers[i] != hashers[j]
    modifies hashers
    ensures forall i :: 0 <= i < |hashers| ==> hashers[i].fed == old(hashers[i].fed) + data
  {
    var k := 0;
    while k < |hashers|
      invariant 0 <= k <= |hashers|
      invariant forall i :: 0 <= i < k ==> hashers[i].fed == old(hashers[i].fed) + data
      invariant forall i :: k <= i < |hashers| ==> hashers[i].fed == old(hashers[i].fed)
    {
      hashers[k].Update(data);
      k := k + 1;
    }
  }

  /**
   * The read loop of `produce_checksums`: the first read asks for `buf`
   * bytes, every later one for the whole remainder, and each chunk goes to
   * every hasher before the next read. Unless `buf` is 0 (then the first
   * read is already empty), every hasher ends up having been fed exactly
   * the bytes that remained in the file, in order, whatever sizes the reads
   * returned; an empty remainder feeds nothing.
   */
  method FeedFile(f: Reader, hashers: seq<Hasher>, buf: int)
    requires f.Valid()
    requires forall i, j :: 0 <= i < j < |hashers| ==> hashers[i] != hashers[j]
    modifies f, hashers
    ensures f.Valid()
    ensures f.pos == if buf == 0 then old(f.pos) else |f.data|
    ensures forall i :: 0 <= i < |hashers| ==>
              hashers[i].fed == old(hashers[i].fed) + (if buf == 0 then [] else old(f.Remaining()))
  {
    var data := f.Read(buf);
    while |data| > 0
      invariant f.Valid()
      invariant old(f.pos) + |data| <= f.pos
      invariant data == f.data[f.pos - |data|..f.pos]
      invariant buf == 0 ==> data == [] && f.pos == old(f.pos)
      invariant data == [] ==> f.pos == |f.data| || buf == 0
      invariant forall i :: 0 <= i < |hashers| ==>
                  hashers[i].fed == old(hashers[i].fed) + f.data[old(f.pos)..f.pos - |data|]
      decreases |f.data| - f.pos + |data|
    {
      assert f.data[old(f.pos)..f.pos - |data|] + data == f.data[old(f.pos)..f.pos];
      FeedAll(hashers, data);
      data := f.Read(-1);
    }
  }

  /**
   * `produce_checksums(f, hashers, buf)`: feed the file to every hasher,
   * then collect each hasher's digest under its name (see `CollectDigests`
   * and the `FromPairs` lemmas for what that dict holds).
   */
  method ProduceChecksums(f: Reader, hashers: seq<Hasher>, buf: int) returns (checksums: Dict)
    requires f.Valid()
    requires forall i, j :: 0 <= i < j < |hashers| ==> hashers[i] != hashers[j]
    modifies f, hashers
    ensures f.Valid()
    ensures f.pos == if buf == 0 then old(f.pos) else |f.data|
    ensures forall i :: 0 <= i < |hashers| ==>
              hashers[i].fed == old(hashers[i].fed) + (if buf == 0 then [] else old(f.Remaining()))
    ensures checksums == FromPairs(Names(hashers), Digests(hashers))
  {
    FeedFile(f, hashers, buf);
    checksums := CollectDigests(hashers);
  }
}
