/**
  The vocabulary of the storage connector: content hashes, blobs, resource tags,
  the dispatch of a tag to one of the store's three keyspaces, the errors the
  store returns, and the byte-range arithmetic of a ranged read.
 */
module Resources {
  import opened Wrappers

  /** A byte string (`[]byte`). */
  type Bytes = seq<bv8>

  /** The size in bytes of a content hash (`objects.MAC`, a `[32]byte`). */
  const MacSize: nat := 32

  /** An opaque, fixed-size content hash; the store never looks inside it. */
  type MAC = m: Bytes | |m| == MacSize witness seq(32, _ => 0 as bv8)

  /** The resource tag a caller passes to the store. `Other` stands for every
      value of the tag type that is none of the three the store serves. */
  datatype StorageResource = Packfile | State | Lock | Other(tag: int)

  /** The three independent keyspaces of the store, one per map field. */
  datatype Keyspace = Packfiles | States | Locks

  /** The errors the store and the exporter report. */
  datatype Error =
    | Unsupported            // errors.ErrUnsupported: unknown resource tag
    | PackfileNotFound       // repository.ErrPackfileNotFound
    | NotFound               // the generic "not found" of the other keyspaces
    | StoreNotCreated        // Open before Create
    | Io(message: string)    // an error passed through from a reader

  /** The resource tag that selects keyspace `k`. */
  function ResourceOf(k: Keyspace): (res: StorageResource)
  {
    match k
    case Packfiles => Packfile
    case States => State
    case Locks => Lock
  }

  /** `mapFor`: the keyspace a resource tag selects, or `Unsupported`. Every
      served tag gets a keyspace of its own, and only those tags get one. */
  function MapFor(res: StorageResource): (r: Result<Keyspace, Error>)
    ensures r.Ok? <==> !res.Other?
    ensures r.Ok? ==> ResourceOf(r.value) == res
    ensures r.Err? ==> r.error == Unsupported
  {
    match res
    case Packfile => Ok(Packfiles)
    case State => Ok(States)
    case Lock => Ok(Locks)
    case Other(_) => Err(Unsupported)
  }

  /** Every keyspace is reached by exactly its own tag. */
  lemma MapForResourceOf(k: Keyspace)
    ensures MapFor(ResourceOf(k)) == Ok(k)
    ensures forall res :: MapFor(res) == Ok(k) ==> res == ResourceOf(k)
  {
  }

  /** Two different tags never share a keyspace. */
  lemma MapForSeparates(r1: StorageResource, r2: StorageResource)
    requires r1 != r2 && MapFor(r1).Ok? && MapFor(r2).Ok?
    ensures MapFor(r1).value != MapFor(r2).value
  {
  }

  // ---------------------------------------------------------------------
  // Byte ranges

  const TwoTo64: int := 0x1_0000_0000_0000_0000
  const TwoTo32: int := 0x1_0000_0000

  /** Go's `uint64` and `uint32`. */
  type U64 = x: int | 0 <= x < TwoTo64
  type U32 = x: int | 0 <= x < TwoTo32

  /** `storage.Range`: an offset and a length within a stored blob. */
  datatype Range = Range(offset: U64, length: U32)

  function Min(a: int, b: int): (m: int)
  {
    if a <= b then a else b
  }

  /** Addition of two `uint64` values, wrapping around modulo 2^64. */
  function AddU64(a: U64, b: U64): (sum: U64)
  {
    (a + b) % TwoTo64
  }

  /** The high bound `min(Offset + uint64(Length), uint64(len(data)))` of a
      ranged read of a blob of `n` bytes, with the addition done in `uint64`. */
  function SliceEnd(rg: Range, n: nat): (end: int)
  {
    Min(AddU64(rg.offset, rg.length), n)
  }

  /** The slice `data[Offset:end]` is defined (Go does not panic) exactly when
      the low bound does not exceed the high bound. */
  predicate SliceOk(rg: Range, n: nat)
  {
    rg.offset <= SliceEnd(rg, n)
  }

  /** A ranged read is defined exactly when the offset is within the blob and
      `Offset + Length` does not wrap around in `uint64`. */
  lemma SliceOkIff(rg: Range, n: nat)
    ensures SliceOk(rg, n) <==> rg.offset <= n && rg.offset + rg.length < TwoTo64
  {
  }

  /** The bytes a ranged read returns: the part of `data` from `Offset` on, at
      most `Length` bytes long, cut off at the blob's end. */
  function ClampRange(data: Bytes, rg: Range): (r: Bytes)
    requires SliceOk(rg, |data|)
    ensures |r| == Min(rg.length, |data| - rg.offset)
    ensures forall i :: 0 <= i < |r| ==> r[i] == data[rg.offset + i]
    ensures rg.offset == |data| ==> r == []
  {
    data[rg.offset .. SliceEnd(rg, |data|)]
  }
}
