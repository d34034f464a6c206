/**
  The contents of the in-memory store as a value, the store's read operations
  (`Open`, `Mode`, `Get`) as functions of that value, the effect of a write or
  a delete on one keyspace, the total size, and the laws relating them.
 */
module StoreModel {
  import opened Wrappers
  import opened Resources

  /** One keyspace: content hash to immutable blob. */
  type Blobs = map<MAC, Bytes>

  /** What a store holds at one moment: its configuration (absent until
      `Create`) and its three keyspaces. */
  datatype Snapshot = Snapshot(config: Option<Bytes>, packfiles: Blobs, states: Blobs, locks: Blobs)
  {
    /** The map that keyspace `k` is kept in. */
    function Space(k: Keyspace): Blobs
    {
      match k
      case Packfiles => packfiles
      case States => states
      case Locks => locks
    }

    /** The store after `data` is published under `mac` in keyspace `k`: the
        blob replaces any earlier one, and nothing else changes. */
    function Stored(k: Keyspace, mac: MAC, data: Bytes): (t: Snapshot)
      ensures t.Space(k) == Space(k)[mac := data]
      ensures forall o :: o != k ==> t.Space(o) == Space(o)
      ensures t.config == config
    {
      match k
      case Packfiles => this.(packfiles := packfiles[mac := data])
      case States => this.(states := states[mac := data])
      case Locks => this.(locks := locks[mac := data])
    }

    /** The store after `mac` is removed from keyspace `k` (present or not). */
    function Deleted(k: Keyspace, mac: MAC): (t: Snapshot)
      ensures t.Space(k) == Space(k) - {mac}
      ensures forall o :: o != k ==> t.Space(o) == Space(o)
      ensures t.config == config
    {
      match k
      case Packfiles => this.(packfiles := packfiles - {mac})
      case States => this.(states := states - {mac})
      case Locks => this.(locks := locks - {mac})
    }
  }

  /** The zero value of the store: not created, all keyspaces empty. */
  const Empty: Snapshot := Snapshot(None, map[], map[], map[])

  // ---------------------------------------------------------------------
  // Configuration lifecycle and capabilities

  /** `Open`: the configuration given to `Create`, or "store not created"
      while there is none. */
  function Open(s: Snapshot): (r: Result<Bytes, Error>)
    ensures r.Err? <==> s.config.None?
    ensures r.Err? ==> r.error == StoreNotCreated
    ensures r.Ok? ==> s.config == Some(r.value)
  {
    match s.config
    case None => Err(StoreNotCreated)
    case Some(cfg) => Ok(cfg)
  }

  /** The capability flags of `Mode`. */
  datatype ModeFlags = ModeFlags(read: bool, write: bool)

  /** `Mode`: the store supports both reading and writing, and never fails. */
  function Mode(): (r: Result<ModeFlags, Error>)
    ensures r.Ok? && r.value.read && r.value.write
  {
    Ok(ModeFlags(read := true, write := true))
  }

  /** After `Create(cfg)` with a non-nil `cfg`, `Open` returns exactly `cfg`;
      with a nil `cfg` the store is still not created. */
  lemma OpenAfterCreate(s: Snapshot, cfg: Option<Bytes>)
    ensures cfg.Some? ==> Open(s.(config := cfg)) == Ok(cfg.value)
    ensures cfg.None? ==> Open(s.(config := cfg)) == Err(StoreNotCreated)
  {
  }

  // ---------------------------------------------------------------------
  // Reads

  /** A `Get` does not panic: either it fails before slicing, or the requested
      range can be sliced out of the stored blob. */
  predicate GetInBounds(s: Snapshot, res: StorageResource, mac: MAC, rg: Option<Range>)
  {
    match MapFor(res)
    case Err(_) => true
    case Ok(k) => mac !in s.Space(k) || rg.None? || SliceOk(rg.value, |s.Space(k)[mac]|)
  }

  /** The error `Get` reports for an absent hash under tag `res`. */
  function NotFoundFor(res: StorageResource): (e: Error)
  {
    if res == Packfile then PackfileNotFound else NotFound
  }

  /** `Get`: the stored blob, or the part of it that the range selects. */
  function Get(s: Snapshot, res: StorageResource, mac: MAC, rg: Option<Range>): (r: Result<Bytes, Error>)
    requires GetInBounds(s, res, mac, rg)
    ensures MapFor(res).Err? ==> r == Err(Unsupported)
    ensures MapFor(res).Ok? ==> (r.Ok? <==> mac in s.Space(MapFor(res).value))
    ensures MapFor(res).Ok? && r.Err? ==> r.error == NotFoundFor(res)
    ensures r.Ok? && rg.None? ==> r.value == s.Space(MapFor(res).value)[mac]
    ensures r.Ok? && rg.Some? ==>
      var blob := s.Space(MapFor(res).value)[mac];
      rg.value.offset <= |blob| &&
      r.value == blob[rg.value.offset .. Min(rg.value.offset + rg.value.length, |blob|)]
  {
    match MapFor(res)
    case Err(e) => Err(e)
    case Ok(k) =>
      if mac !in s.Space(k) then
        Err(NotFoundFor(res))
      else
        var data := s.Space(k)[mac];
        if rg.None? then Ok(data) else Ok(ClampRange(data, rg.value))
  }

  // ---------------------------------------------------------------------
  // Size accounting

  /** The number of bytes held in one keyspace. */
  ghost function TotalLength(m: Blobs): (total: nat)
    decreases |m|
  {
    if m == map[] then 0
    else
      var h :| h in m;
      assert |(m - {h}).Keys| < |m.Keys|;
      |m[h]| + TotalLength(m - {h})
  }

  /** The number of bytes held in all three keyspaces. */
  ghost function TotalSize(s: Snapshot): (total: nat)
  {
    TotalLength(s.packfiles) + TotalLength(s.states) + TotalLength(s.locks)
  }

  /** The total does not depend on the order the entries are visited in: it
      is any one blob's length plus the total of the rest. */
  lemma {:induction false} TotalLengthRemove(m: Blobs, h: MAC)
    requires h in m
    ensures TotalLength(m) == |m[h]| + TotalLength(m - {h})
    decreases |m|
  {
    var g :| g in m && TotalLength(m) == |m[g]| + TotalLength(m - {g});
    if g != h {
      assert |(m - {g}).Keys| < |m.Keys|;
      assert |(m - {h}).Keys| < |m.Keys|;
      TotalLengthRemove(m - {g}, h);
      TotalLengthRemove(m - {h}, g);
      assert m - {g} - {h} == m - {h} - {g};
    }
  }

  /** Deleting a present hash lowers the total size by exactly the length of
      its blob; deleting an absent one leaves it unchanged. */
  lemma {:induction false} SizeAfterDelete(s: Snapshot, k: Keyspace, mac: MAC)
    ensures mac in s.Space(k) ==> TotalSize(s.Deleted(k, mac)) == TotalSize(s) - |s.Space(k)[mac]|
    ensures mac !in s.Space(k) ==> TotalSize(s.Deleted(k, mac)) == TotalSize(s)
  {
    var m := s.Space(k);
    if mac in m {
      TotalLengthRemove(m, mac);
    } else {
      assert m - {mac} == m;
    }
  }

  /** Putting a fresh hash raises the total size by the new blob's length;
      overwriting one replaces the old blob's length with the new one's. */
  lemma {:induction false} SizeAfterPut(s: Snapshot, k: Keyspace, mac: MAC, data: Bytes)
    ensures mac !in s.Space(k) ==> TotalSize(s.Stored(k, mac, data)) == TotalSize(s) + |data|
    ensures mac in s.Space(k) ==>
      TotalSize(s.Stored(k, mac, data)) == TotalSize(s) - |s.Space(k)[mac]| + |data|
  {
    var m := s.Space(k);
    TotalLengthRemove(m[mac := data], mac);
    assert m[mac := data] - {mac} == m - {mac};
    if mac in m {
      TotalLengthRemove(m, mac);
    } else {
      assert m - {mac} == m;
    }
  }

  // ---------------------------------------------------------------------
  // Laws of the store

  /** A put followed by a get of the same hash returns exactly the blob put,
      the empty blob included. */
  lemma PutThenGet(s: Snapshot, res: StorageResource, mac: MAC, data: Bytes)
    requires MapFor(res).Ok?
    ensures Get(s.Stored(MapFor(res).value, mac, data), res, mac, None) == Ok(data)
  {
  }

  /** A second put of the same hash replaces the blob: the last write wins. */
  lemma LastWriteWins(s: Snapshot, k: Keyspace, mac: MAC, first: Bytes, second: Bytes)
    ensures s.Stored(k, mac, first).Stored(k, mac, second) == s.Stored(k, mac, second)
  {
  }

  /** After a delete, a get of the same hash fails with the not-found error
      of its tag, whatever range is asked for. */
  lemma GetAfterDelete(s: Snapshot, res: StorageResource, mac: MAC, rg: Option<Range>)
    requires MapFor(res).Ok?
    ensures Get(s.Deleted(MapFor(res).value, mac), res, mac, rg) == Err(NotFoundFor(res))
  {
  }

  /** Deleting an absent hash changes nothing. */
  lemma DeleteAbsent(s: Snapshot, k: Keyspace, mac: MAC)
    requires mac !in s.Space(k)
    ensures s.Deleted(k, mac) == s
  {
  }

  /** Deleting twice is the same as deleting once. */
  lemma DeleteIdempotent(s: Snapshot, k: Keyspace, mac: MAC)
    ensures s.Deleted(k, mac).Deleted(k, mac) == s.Deleted(k, mac)
  {
  }

  /** A put or a delete in one keyspace is invisible to every get in another
      keyspace, and to every get of another hash in the same keyspace. */
  lemma WritesAreIsolated(s: Snapshot, k: Keyspace, mac: MAC, data: Bytes,
                          res: StorageResource, other: MAC, rg: Option<Range>)
    requires MapFor(res).Ok? && (MapFor(res).value != k || other != mac)
    requires GetInBounds(s, res, other, rg)
    ensures GetInBounds(s.Stored(k, mac, data), res, other, rg)
    ensures Get(s.Stored(k, mac, data), res, other, rg) == Get(s, res, other, rg)
    ensures GetInBounds(s.Deleted(k, mac), res, other, rg)
    ensures Get(s.Deleted(k, mac), res, other, rg) == Get(s, res, other, rg)
  {
  }
}
