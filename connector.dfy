/**
  The test connector: the in-memory resource store `TestStore`, whose methods
  update its configuration and its three keyspaces in place, and the exporter's
  loop that turns a stream of records into one result per record.
 */
module Connector {
  import opened Wrappers
  import opened Resources
  import opened StoreModel

  /** The outcome of draining a `Put`'s reader with `io.ReadAll`. */
  datatype Drain = Drained(data: Bytes) | DrainFailed(message: string)

  /** No element of `s` occurs twice. */
  predicate Distinct<T(==)>(s: seq<T>)
  {
    forall i, j :: 0 <= i < j < |s| ==> s[i] != s[j]
  }

  /** The in-memory store: a configuration and three keyspaces. */
  class TestStore {
    var config: Option<Bytes>
    var packfiles: Blobs
    var states: Blobs
    var locks: Blobs

    /** The store's current contents as a value. */
    function View(): (s: Snapshot)
      reads this
    {
      Snapshot(config, packfiles, states, locks)
    }

    /** The zero value `testStore{}`: not created, nothing stored. */
    constructor ()
      ensures View() == Empty
    {
      config := None;
      packfiles := map[];
      states := map[];
      locks := map[];
    }

    /** `Create`: records the configuration; the keyspaces are untouched. */
    method Create(cfg: Option<Bytes>) returns (err: Option<Error>)
      modifies this
      ensures err == None
      ensures View() == old(View()).(config := cfg)
      ensures cfg.Some? ==> Open(View()) == Ok(cfg.value)
    {
      config := cfg;
      err := None;
    }

    /** `Size`: adds up the length of every blob of every keyspace. */
    method Size() returns (size: int, err: Option<Error>)
      ensures err == None
      ensures size == TotalSize(View())
    {
      size, err := 0, None;
      var spaces := [packfiles, states, locks];
      ghost var sums := [TotalLength(packfiles), TotalLength(states), TotalLength(locks)];
      for i := 0 to |spaces|
        invariant size == (if i > 0 then sums[0] else 0) + (if i > 1 then sums[1] else 0)
                          + (if i > 2 then sums[2] else 0)
      {
        var rest := spaces[i];
        ghost var before := size;
        while rest != map[]
          invariant size + TotalLength(rest) == before + TotalLength(spaces[i])
          decreases |rest|
        {
          var h :| h in rest;
          TotalLengthRemove(rest, h);
          size := size + |rest[h]|;
          assert |(rest - {h}).Keys| < |rest.Keys|;
          rest := rest - {h};
        }
      }
    }

    /** `List`: every hash of the keyspace `res` selects, each once. */
    method List(res: StorageResource) returns (r: Result<seq<MAC>, Error>)
      ensures MapFor(res).Err? ==> r == Err(Unsupported)
      ensures MapFor(res).Ok? ==> r.Ok?
      ensures r.Ok? ==> forall h :: h in r.value <==> h in View().Space(MapFor(res).value)
      ensures r.Ok? ==> Distinct(r.value) && |r.value| == |View().Space(MapFor(res).value)|
    {
      var k;
      match MapFor(res) {
        case Err(e) => return Err(e);
        case Ok(space) => k := space;
      }
      var keys := View().Space(k).Keys;
      var macs: seq<MAC> := [];
      var rest := keys;
      while rest != {}
        invariant rest <= keys
        invariant forall h :: h in macs <==> h in keys && h !in rest
        invariant Distinct(macs)
        invariant |macs| + |rest| == |keys|
        decreases rest
      {
        var h :| h in rest;
        macs := macs + [h];
        rest := rest - {h};
      }
      r := Ok(macs);
    }

    /** `Put`: drains the reader and publishes its bytes under `mac`. */
    method Put(res: StorageResource, mac: MAC, rd: Drain) returns (written: int, err: Option<Error>)
      modifies this
      ensures MapFor(res).Err? ==>
        written == -1 && err == Some(Unsupported) && View() == old(View())
      ensures MapFor(res).Ok? && rd.DrainFailed? ==>
        written == -1 && err == Some(Io(rd.message)) && View() == old(View())
      ensures MapFor(res).Ok? && rd.Drained? ==>
        && written == |rd.data|
        && err == None
        && View() == old(View()).Stored(MapFor(res).value, mac, rd.data)
    {
      var k;
      match MapFor(res) {
        case Err(e) => return -1, Some(e);
        case Ok(space) => k := space;
      }
      match rd {
        case DrainFailed(message) => return -1, Some(Io(message));
        case Drained(data) =>
          match k {
            case Packfiles => packfiles := packfiles[mac := data];
            case States => states := states[mac := data];
            case Locks => locks := locks[mac := data];
          }
          return |data|, None;
      }
    }

    /** `Delete`: removes `mac` from the keyspace `res` selects, if present. */
    method Delete(res: StorageResource, mac: MAC) returns (err: Option<Error>)
      modifies this
      ensures MapFor(res).Err? ==> err == Some(Unsupported) && View() == old(View())
      ensures MapFor(res).Ok? ==>
        err == None && View() == old(View()).Deleted(MapFor(res).value, mac)
    {
      var k;
      match MapFor(res) {
        case Err(e) => return Some(e);
        case Ok(space) => k := space;
      }
      match k {
        case Packfiles => packfiles := packfiles - {mac};
        case States => states := states - {mac};
        case Locks => locks := locks - {mac};
      }
      return None;
    }
  }

  /** Two puts of the same packfile hash, then a get: the second blob is read. */
  method LastWriteWinsScenario(h: MAC) returns (got: Result<Bytes, Error>)
    ensures got == Ok([0x78, 0x79, 0x7a])
  {
    var store := new TestStore();
    var _, _ := store.Put(Packfile, h, Drained([0x61, 0x62, 0x63]));
    var _, _ := store.Put(Packfile, h, Drained([0x78, 0x79, 0x7a]));
    got := Get(store.View(), Packfile, h, None);
  }

  /** Listing a keyspace of a fresh store gives an empty list, not an error. */
  method EmptyListScenario() returns (listed: Result<seq<MAC>, Error>)
    ensures listed == Ok([])
  {
    var store := new TestStore();
    listed := store.List(State);
  }

  // ---------------------------------------------------------------------
  // Export

  /** What copying a record's content does: the record has no reader, or
      its reader is copied out completely, or the copy fails. */
  datatype Copy = NoReader | Copied | CopyFailed(message: string)

  /** A record received from the importer: its path and its content. */
  datatype Record = Record(pathname: string, content: Copy)

  /** The result sent back for one record. */
  datatype RecordResult = Success(record: Record) | Failure(record: Record, cause: Error)

  /** `Export`: one result per record, in record order; a failed copy gives
      a failure for that record only and the loop goes on. */
  method Export(records: seq<Record>) returns (results: seq<RecordResult>, err: Option<Error>)
    ensures err == None
    ensures |results| == |records|
    ensures forall i :: 0 <= i < |results| ==> results[i].record == records[i]
    ensures forall i :: 0 <= i < |results| ==> (results[i].Failure? <==> records[i].content.CopyFailed?)
    ensures forall i :: 0 <= i < |results| && results[i].Failure? ==>
      results[i].cause == Io(records[i].content.message)
  {
    results := [];
    for i := 0 to |records|
      invariant |results| == i
      invariant forall j :: 0 <= j < i ==> results[j].record == records[j]
      invariant forall j :: 0 <= j < i ==> (results[j].Failure? <==> records[j].content.CopyFailed?)
      invariant forall j :: 0 <= j < i && results[j].Failure? ==>
        results[j].cause == Io(records[j].content.message)
    {
      var record := records[i];
      if !record.content.NoReader? {
        if record.content.CopyFailed? {
          results := results + [Failure(record, Io(record.content.message))];
          continue;
        }
      }
      results := results + [Success(record)];
    }
    err := None;
  }
}
