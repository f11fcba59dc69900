/**
 * The MongoDB connection holder: the connected flag, the memoised collection
 * handles and the offline write queue that is replayed once the database is
 * reachable again.
 *
 * The driver itself is not modelled: whether dialling, pinging or replaying
 * one operation succeeds is a parameter of the method that does it.
 */
module Database {
  import opened Wrappers

  /** A query filter (`bson.M`), its values already rendered as text. */
  type Query = map<string, string>

  /** A stored document, field by field. */
  type Document = map<string, string>

  /** A collection handle of the open database; it knows its own name. */
  datatype Collection = Collection(name: string)

  /** A write that could not reach the database and waits to be replayed. */
  datatype QueuedOperation = QueuedOperation(
    collectionName: string, query: Query, operation: string, data: Option<Document>)

  /** Only these two operation names do anything when replayed. */
  predicate IsWrite(operation: string) {
    operation == "set" || operation == "delete"
  }

  /**
   * Whether `GetCollection(name)` yields a handle: a memoised one, or a new
   * one when the database handle is open.
   */
  predicate Resolves(name: string, known: set<string>, hasDb: bool) {
    name in known || hasDb
  }

  /** Whether the replay of one operation fails, so that it goes back in the queue. */
  predicate Requeued(op: QueuedOperation, replayOk: bool, known: set<string>, hasDb: bool) {
    Resolves(op.collectionName, known, hasDb) && IsWrite(op.operation) && !replayOk
  }

  /**
   * The operations of `ops` whose replay fails, in their order in `ops`;
   * `replayOk[i]` is the database's answer to `ops[i]`.
   */
  function FailedOps(ops: seq<QueuedOperation>, replayOk: seq<bool>, known: set<string>, hasDb: bool): seq<QueuedOperation>
    requires |replayOk| == |ops|
    decreases |ops|
  {
    if ops == [] then []
    else
      var n := |ops| - 1;
      FailedOps(ops[..n], replayOk[..n], known, hasDb)
        + (if Requeued(ops[n], replayOk[n], known, hasDb) then [ops[n]] else [])
  }

  /** What is requeued comes from the batch, and is a "set" or a "delete". */
  lemma {:induction false} FailedOpsFromBatch(ops: seq<QueuedOperation>, replayOk: seq<bool>, known: set<string>, hasDb: bool)
    requires |replayOk| == |ops|
    ensures |FailedOps(ops, replayOk, known, hasDb)| <= |ops|
    ensures forall op :: op in FailedOps(ops, replayOk, known, hasDb) ==> op in ops && IsWrite(op.operation)
    decreases |ops|
  {
    if ops != [] {
      var n := |ops| - 1;
      FailedOpsFromBatch(ops[..n], replayOk[..n], known, hasDb);
      forall op | op in ops[..n] ensures op in ops {
        var i :| 0 <= i < n && ops[..n][i] == op;
        assert ops[i] == op;
      }
    }
  }

  /** Replaying a batch in two halves leaves the failures of each half, in order. */
  lemma {:induction false} FailedOpsAppend(
    ops1: seq<QueuedOperation>, ok1: seq<bool>, ops2: seq<QueuedOperation>, ok2: seq<bool>,
    known: set<string>, hasDb: bool)
    requires |ok1| == |ops1| && |ok2| == |ops2|
    ensures FailedOps(ops1 + ops2, ok1 + ok2, known, hasDb)
         == FailedOps(ops1, ok1, known, hasDb) + FailedOps(ops2, ok2, known, hasDb)
    decreases |ops2|
  {
    if ops2 == [] {
      assert ops1 + ops2 == ops1;
      assert ok1 + ok2 == ok1;
    } else {
      var n := |ops2| - 1;
      var ops := ops1 + ops2;
      var ok := ok1 + ok2;
      var last := if Requeued(ops2[n], ok2[n], known, hasDb) then [ops2[n]] else [];
      assert ops[..|ops| - 1] == ops1 + ops2[..n];
      assert ok[..|ok| - 1] == ok1 + ok2[..n];
      assert |ops| - 1 == |ops1| + n;
      assert ops[|ops| - 1] == ops2[n] && ok[|ok| - 1] == ok2[n];
      assert FailedOps(ops2, ok2, known, hasDb) == FailedOps(ops2[..n], ok2[..n], known, hasDb) + last;
      calc {
        FailedOps(ops, ok, known, hasDb);
        FailedOps(ops1 + ops2[..n], ok1 + ok2[..n], known, hasDb) + last;
        { FailedOpsAppend(ops1, ok1, ops2[..n], ok2[..n], known, hasDb); }
        FailedOps(ops1, ok1, known, hasDb) + FailedOps(ops2[..n], ok2[..n], known, hasDb) + last;
        FailedOps(ops1, ok1, known, hasDb) + FailedOps(ops2, ok2, known, hasDb);
      }
    }
  }

  /** One operation on its own is requeued exactly when its replay fails. */
  lemma FailedOpsSingle(op: QueuedOperation, replayOk: bool, known: set<string>, hasDb: bool)
    ensures FailedOps([op], [replayOk], known, hasDb)
         == if Requeued(op, replayOk, known, hasDb) then [op] else []
  {
    assert [op][..0] == [];
  }

  /** When every replay succeeds the queue ends up empty. */
  lemma {:induction false} AllReplayedEmptiesQueue(ops: seq<QueuedOperation>, replayOk: seq<bool>, known: set<string>, hasDb: bool)
    requires |replayOk| == |ops|
    requires forall i :: 0 <= i < |replayOk| ==> replayOk[i]
    ensures FailedOps(ops, replayOk, known, hasDb) == []
    decreases |ops|
  {
    if ops != [] {
      var n := |ops| - 1;
      AllReplayedEmptiesQueue(ops[..n], replayOk[..n], known, hasDb);
    }
  }

  /**
   * An operation is requeued exactly when it is a "set" or "delete" on a
   * collection that resolves and its replay fails: operations on a missing
   * collection and operations with another name are dropped.
   */
  lemma {:induction false} FailedOpsMembers(ops: seq<QueuedOperation>, replayOk: seq<bool>, known: set<string>, hasDb: bool, i: int)
    requires |replayOk| == |ops| && 0 <= i < |ops|
    requires forall j :: 0 <= j < |ops| && j != i ==> ops[j] != ops[i]
    ensures ops[i] in FailedOps(ops, replayOk, known, hasDb) <==> Requeued(ops[i], replayOk[i], known, hasDb)
    decreases |ops|
  {
    var n := |ops| - 1;
    if i < n {
      FailedOpsMembers(ops[..n], replayOk[..n], known, hasDb, i);
    } else {
      assert ops[i] !in ops[..n];
      FailedOpsFromBatch(ops[..n], replayOk[..n], known, hasDb);
    }
  }

  class Database {
    var isConnected: bool
    /** Whether the database handle (`d.db`) has been opened. */
    var hasDb: bool
    /** Whether the reconnect ticker is running. */
    var reconnecting: bool
    var writeQueue: seq<QueuedOperation>
    var collections: map<string, Collection>

    /** Every memoised handle is the collection of the name it is filed under. */
    ghost predicate Valid()
      reads this
    {
      forall n :: n in collections ==> collections[n].name == n
    }

    /** `NewDatabase`: disconnected, nothing queued, nothing memoised. */
    constructor()
      ensures Valid()
      ensures !isConnected && !hasDb && !reconnecting
      ensures writeQueue == [] && collections == map[]
    {
      isConnected := false;
      hasDb := false;
      reconnecting := false;
      writeQueue := [];
      collections := map[];
    }

    /**
     * `Connect`: nothing to do when already connected; otherwise the dial and
     * the ping decide. On success the handle is open, the flag set and the
     * reconnect ticker stopped; the replay of the queue is started apart, by
     * `SyncOfflineWrites`.
     */
    method Connect(dialOk: bool, pingOk: bool) returns (ok: bool)
      requires Valid()
      modifies this`isConnected, this`hasDb, this`reconnecting
      ensures Valid()
      ensures old(isConnected) ==> ok && isConnected == old(isConnected) && hasDb == old(hasDb) && reconnecting == old(reconnecting)
      ensures !old(isConnected) ==> ok == (dialOk && pingOk)
      ensures !old(isConnected) && ok ==> isConnected && hasDb && !reconnecting
      ensures !old(isConnected) && !ok ==> !isConnected && hasDb == old(hasDb) && reconnecting == old(reconnecting)
    {
      if isConnected {
        return true;
      }
      if !dialOk || !pingOk {
        HandleDisconnection();
        return false;
      }
      hasDb := true;
      isConnected := true;
      reconnecting := false;
      return true;
    }

    /**
     * `handleDisconnection`: only a connected database goes offline and
     * starts the reconnect ticker (if it is not running yet).
     */
    method HandleDisconnection()
      modifies this`isConnected, this`reconnecting
      ensures !old(isConnected) ==> isConnected == old(isConnected) && reconnecting == old(reconnecting)
      ensures old(isConnected) ==> !isConnected && reconnecting
    {
      if !isConnected {
        return;
      }
      isConnected := false;
      if !reconnecting {
        reconnecting := true;
      }
    }

    /**
     * `GetCollection`: a memoised handle first; otherwise none while the
     * database handle is closed (and nothing is memoised), else a new handle
     * that is memoised.
     */
    method GetCollection(name: string) returns (col: Option<Collection>)
      requires Valid()
      modifies this`collections
      ensures Valid()
      ensures name in old(collections) ==> col == Some(old(collections)[name]) && collections == old(collections)
      ensures name !in old(collections) && !hasDb ==> col == None && collections == old(collections)
      ensures name !in old(collections) && hasDb ==> col == Some(Collection(name)) && collections == old(collections)[name := Collection(name)]
      ensures col.Some? ==> col.value.name == name && name in collections
      ensures col.Some? <==> Resolves(name, old(collections).Keys, hasDb)
    {
      if name in collections {
        return Some(collections[name]);
      }
      if !hasDb {
        return None;
      }
      var c := Collection(name);
      collections := collections[name := c];
      return Some(c);
    }

    /** `AddToWriteQueue`: the operation goes at the tail; nothing else changes. */
    method AddToWriteQueue(op: QueuedOperation)
      modifies this`writeQueue
      ensures writeQueue == old(writeQueue) + [op]
    {
      writeQueue := writeQueue + [op];
    }

    /**
     * `syncOfflineWrites`: take the whole queue, replay each operation in
     * order, and put back the ones that failed. `replayOk[i]` is the
     * database's answer to the i-th queued operation.
     */
    method SyncOfflineWrites(replayOk: seq<bool>)
      requires Valid()
      requires |replayOk| == |writeQueue|
      modifies this`writeQueue, this`collections
      ensures Valid()
      ensures old(writeQueue) == [] ==> writeQueue == [] && collections == old(collections)
      ensures writeQueue == FailedOps(old(writeQueue), replayOk, old(collections).Keys, hasDb)
    {
      if |writeQueue| == 0 {
        return;
      }
      var operations := writeQueue;
      writeQueue := [];
      var failedOps: seq<QueuedOperation> := [];
      var i := 0;
      while i < |operations|
        invariant 0 <= i <= |operations|
        invariant Valid()
        invariant writeQueue == []
        invariant old(collections).Keys <= collections.Keys
        invariant !hasDb ==> collections == old(collections)
        invariant failedOps == FailedOps(operations[..i], replayOk[..i], old(collections).Keys, hasDb)
      {
        var op := operations[i];
        assert operations[..i + 1][..i] == operations[..i];
        assert replayOk[..i + 1][..i] == replayOk[..i];
        var col := GetCollection(op.collectionName);
        if col.Some? {
          var failed := false;
          if op.operation == "set" {
            failed := !replayOk[i];
          } else if op.operation == "delete" {
            failed := !replayOk[i];
          }
          if failed {
            failedOps := failedOps + [op];
          }
        }
        i := i + 1;
      }
      assert operations[..i] == operations;
      assert replayOk[..i] == replayOk;
      writeQueue := writeQueue + failedOps;
    }
  }
}
