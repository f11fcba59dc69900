/**
 * The blacklist service built on `models.BlacklistEntry`: a package-level
 * cache, written through on every add and remove, and refreshed wholesale
 * from the database.
 *
 * The data manager's answers are parameters: whether it exists, what its
 * `Set`, `Delete` and `GetAll` calls come back with.
 */
module BlacklistService {
  import opened Wrappers
  import MapView

  /** `models.BlacklistEntry`; `createdAt` in milliseconds. */
  datatype BlacklistEntry = BlacklistEntry(id: string, kind: string, reason: string, createdAt: int, createdBy: string)

  datatype ServiceError =
    | ManagerNotInitialized
    | EntryNotFound
    | EntryExists
    | DbError

  datatype Result<T> = Ok(value: T) | Err(error: ServiceError)

  /**
   * How the data manager's `Set` ends: written (the upsert sets every field,
   * so the document read back is the one written), queued because the
   * database is offline, or failed.
   */
  datatype WriteOutcome = Written | Queued | WriteFailed

  /** The pointer `Set` hands back: the document when written, nil otherwise. */
  function SetResult(outcome: WriteOutcome, entry: BlacklistEntry): (r: Option<BlacklistEntry>)
    ensures r.Some? <==> outcome.Written?
    ensures r.Some? ==> r.value == entry
  {
    if outcome.Written? then Some(entry) else None
  }

  /** The cache the package keeps: every entry under its ID, later ones replacing earlier ones. */
  function ByID(entries: seq<BlacklistEntry>): map<string, BlacklistEntry>
    decreases |entries|
  {
    if entries == [] then map[]
    else
      var n := |entries| - 1;
      ByID(entries[..n])[entries[n].id := entries[n]]
  }

  /** `ByID` files each entry under its own ID and holds exactly the IDs fetched. */
  lemma {:induction false} ByIDKeyed(entries: seq<BlacklistEntry>)
    ensures forall k :: k in ByID(entries) ==> ByID(entries)[k].id == k && ByID(entries)[k] in entries
    ensures forall i :: 0 <= i < |entries| ==> entries[i].id in ByID(entries)
    decreases |entries|
  {
    if entries != [] {
      var n := |entries| - 1;
      ByIDKeyed(entries[..n]);
      forall k | k in ByID(entries[..n]) ensures ByID(entries[..n])[k] in entries {
        assert ByID(entries[..n])[k] in entries[..n];
      }
      forall i | 0 <= i < n ensures entries[i].id in ByID(entries) {
        assert entries[..n][i] == entries[i];
      }
    }
  }

  /** What became of `addToCache` as written: a nil pointer cannot be dereferenced. */
  datatype CacheStep = Panics | Cached(entries: map<string, BlacklistEntry>)

  /** `addToCache(result)` as `AddToBlacklist` calls it, with the pointer `Set` returned. */
  function AddToCacheAsWritten(entries: map<string, BlacklistEntry>, result: Option<BlacklistEntry>): (s: CacheStep)
    ensures s.Panics? <==> result.None?
    ensures result.Some? ==> s == Cached(entries[result.value.id := result.value])
  {
    match result
    case None => Panics
    case Some(e) => Cached(entries[e.id := e])
  }

  /**
   * A new ID added while the database is offline: `Set` queues the write and
   * returns nil without an error, and caching that nil pointer panics.
   */
  lemma OfflineAddPanics(entries: map<string, BlacklistEntry>, entry: BlacklistEntry)
    ensures SetResult(Queued, entry) == None
    ensures AddToCacheAsWritten(entries, SetResult(Queued, entry)) == Panics
  {
  }

  class BlacklistCache {
    var entries: map<string, BlacklistEntry>
    /** Whether a refresh ticker was created (`ticker != nil`) and whether it was stopped. */
    var tickerSet: bool
    var tickerStopped: bool
    var doneClosed: bool
    /** Whether `stopOnce` has run its function. */
    var stopOnceDone: bool

    /** Every entry sits under its own ID; `done` is closed exactly by the one stop. */
    ghost predicate Valid()
      reads this
    {
      (forall k :: k in entries ==> entries[k].id == k) && (doneClosed <==> stopOnceDone)
    }

    /** The package-level `blacklistCache`: empty, no ticker, `done` open. */
    constructor()
      ensures Valid()
      ensures entries == map[] && !tickerSet && !tickerStopped && !doneClosed && !stopOnceDone
    {
      entries := map[];
      tickerSet := false;
      tickerStopped := false;
      doneClosed := false;
      stopOnceDone := false;
    }

    /** `IsBlacklisted`: plain presence, whatever the entry's type. */
    function IsBlacklisted(id: string): (r: (bool, Option<BlacklistEntry>))
      reads this
      ensures r.0 <==> id in entries
      ensures r.1 == if id in entries then Some(entries[id]) else None
    {
      if id in entries then (true, Some(entries[id])) else (false, None)
    }

    /** `IsUserBlacklisted`: the same lookup. */
    function IsUserBlacklisted(userId: string): (bool, Option<BlacklistEntry>)
      reads this
    {
      IsBlacklisted(userId)
    }

    /** `IsGuildBlacklisted`: the same lookup. */
    function IsGuildBlacklisted(guildId: string): (bool, Option<BlacklistEntry>)
      reads this
    {
      IsBlacklisted(guildId)
    }

    /** `GetBlacklistEntry`: the cached entry, or `EntryNotFound`. */
    function GetBlacklistEntry(id: string): (r: Result<BlacklistEntry>)
      reads this
      ensures r.Ok? <==> id in entries
      ensures r.Ok? ==> r.value == entries[id]
      ensures r.Err? ==> r.error == EntryNotFound
    {
      if id !in entries then Err(EntryNotFound) else Ok(entries[id])
    }

    /**
     * `AddToBlacklist`: an ID already cached is refused before anything is
     * written; otherwise the entry is written and cached. The cached entry is
     * the one written even when the write was only queued (see
     * `OfflineAddPanics` for what the code does then).
     */
    method AddToBlacklist(id: string, kind: string, reason: string, createdBy: string, now: int,
                          hasManager: bool, outcome: WriteOutcome) returns (r: Result<Option<BlacklistEntry>>)
      requires Valid()
      modifies this`entries
      ensures Valid()
      ensures old(id in entries) ==> r == Err(EntryExists) && entries == old(entries)
      ensures !old(id in entries) && !hasManager ==> r == Err(ManagerNotInitialized) && entries == old(entries)
      ensures !old(id in entries) && hasManager && outcome.WriteFailed? ==> r == Err(DbError) && entries == old(entries)
      ensures r.Ok? ==>
        var entry := BlacklistEntry(id, kind, reason, now, createdBy);
        r.value == SetResult(outcome, entry) && entries == old(entries)[id := entry]
      ensures r.Ok? <==> !old(id in entries) && hasManager && !outcome.WriteFailed?
      ensures r.Ok? ==> IsBlacklisted(id).0
    {
      if IsBlacklisted(id).0 {
        return Err(EntryExists);
      }
      if !hasManager {
        return Err(ManagerNotInitialized);
      }
      var entry := BlacklistEntry(id, kind, reason, now, createdBy);
      if outcome.WriteFailed? {
        return Err(DbError);
      }
      var result := SetResult(outcome, entry);
      entries := entries[entry.id := entry];
      return Ok(result);
    }

    /**
     * `RemoveFromBlacklist`: an ID not cached is refused; a failed delete
     * leaves the cache alone; otherwise (deleted, or queued while offline)
     * the ID leaves the cache.
     */
    method RemoveFromBlacklist(id: string, hasManager: bool, deleteOk: bool) returns (err: Option<ServiceError>)
      requires Valid()
      modifies this`entries
      ensures Valid()
      ensures old(id !in entries) ==> err == Some(EntryNotFound) && entries == old(entries)
      ensures old(id in entries) && !hasManager ==> err == Some(ManagerNotInitialized) && entries == old(entries)
      ensures old(id in entries) && hasManager && !deleteOk ==> err == Some(DbError) && entries == old(entries)
      ensures err.None? <==> old(id in entries) && hasManager && deleteOk
      ensures err.None? ==> entries == old(entries) - {id}
    {
      if !IsBlacklisted(id).0 {
        return Some(EntryNotFound);
      }
      if !hasManager {
        return Some(ManagerNotInitialized);
      }
      if !deleteOk {
        return Some(DbError);
      }
      entries := entries - {id};
      return None;
    }

    /** `GetAllBlacklistEntries`: every cached entry once. */
    method GetAllBlacklistEntries() returns (result: seq<BlacklistEntry>)
      requires Valid()
      ensures |result| == |entries|
      ensures forall e :: e in result <==> e in entries.Values
    {
      var keys;
      keys, result := MapView.CollectWhere(entries, (e: BlacklistEntry) => true);
      MapView.AllListed(entries, keys);
      forall e | e in entries.Values ensures e in result {
        var k :| k in entries && entries[k] == e;
        var i :| 0 <= i < |keys| && keys[i] == k;
        assert result[i] == e;
      }
    }

    /** `GetBlacklistEntriesByType`: exactly the cached entries of `kind`, each once. */
    method GetBlacklistEntriesByType(kind: string) returns (result: seq<BlacklistEntry>)
      requires Valid()
      ensures forall e :: e in result <==> e in entries.Values && e.kind == kind
      ensures forall i, j :: 0 <= i < j < |result| ==> result[i].id != result[j].id
    {
      var keys;
      keys, result := MapView.CollectWhere(entries, (e: BlacklistEntry) => e.kind == kind);
      forall e | e in entries.Values && e.kind == kind ensures e in result {
        var k :| k in entries && entries[k] == e;
        var i :| 0 <= i < |keys| && keys[i] == k;
        assert result[i] == e;
      }
    }

    /**
     * `RefreshBlacklistCache` (and `InitBlacklistCache`): without a data
     * manager, or when `GetAll` fails (`fetched == None`), the cache stays as
     * it was; otherwise it is rebuilt from the fetched entries alone.
     */
    method RefreshBlacklistCache(hasManager: bool, fetched: Option<seq<BlacklistEntry>>) returns (err: Option<ServiceError>)
      requires Valid()
      modifies this`entries
      ensures Valid()
      ensures !hasManager ==> err == Some(ManagerNotInitialized) && entries == old(entries)
      ensures hasManager && fetched.None? ==> err == Some(DbError) && entries == old(entries)
      ensures hasManager && fetched.Some? ==> err.None? && entries == ByID(fetched.value)
    {
      if !hasManager {
        return Some(ManagerNotInitialized);
      }
      if fetched.None? {
        return Some(DbError);
      }
      var list := fetched.value;
      entries := map[];
      var i := 0;
      while i < |list|
        invariant 0 <= i <= |list|
        invariant entries == ByID(list[..i])
      {
        assert list[..i + 1][..i] == list[..i];
        entries := entries[list[i].id := list[i]];
        i := i + 1;
      }
      assert list[..i] == list;
      ByIDKeyed(list);
      return None;
    }

    /** `StartBlacklistCacheRefresh`: a new ticker is created. */
    method StartBlacklistCacheRefresh()
      requires Valid()
      modifies this`tickerSet, this`tickerStopped
      ensures Valid()
      ensures tickerSet && !tickerStopped
    {
      tickerSet := true;
      tickerStopped := false;
    }

    /**
     * `StopBlacklistCacheRefresh`: the first call stops the ticker (if there
     * is one) and closes `done`; later calls do nothing, so `done` is never
     * closed twice.
     */
    method StopBlacklistCacheRefresh()
      requires Valid()
      modifies this`tickerStopped, this`doneClosed, this`stopOnceDone
      ensures Valid()
      ensures doneClosed && stopOnceDone
      ensures old(stopOnceDone) ==> tickerStopped == old(tickerStopped)
      ensures !old(stopOnceDone) ==> tickerStopped == (old(tickerStopped) || tickerSet)
    {
      if !stopOnceDone {
        stopOnceDone := true;
        if tickerSet {
          tickerStopped := true;
        }
        assert !doneClosed;
        doneClosed := true;
      }
    }
  }

  /** The user and guild lookups ignore the entry's type: all three agree. */
  lemma TypeIgnored(c: BlacklistCache, id: string)
    ensures c.IsUserBlacklisted(id) == c.IsBlacklisted(id) == c.IsGuildBlacklisted(id)
  {
  }
}
