/**
 * The in-memory blacklist of users and guilds, keyed by ID, with a periodic
 * refresh from the database (the version built on `models.Blacklist`).
 *
 * The database read is a parameter of `Refresh`: whether the query could be
 * issued, the documents the cursor yields (each decoded or not), and whether
 * the cursor ended in an error.
 */
module Blacklists {
  import opened Wrappers
  import MapView

  const UserType := "user"
  const GuildType := "guild"

  /** `models.Blacklist`; `addedAt` in milliseconds. */
  datatype Blacklist = Blacklist(id: string, kind: string, reason: string, addedBy: string, addedAt: int)

  /** What the database returns to a refresh. */
  datatype Fetch =
    | FindFailed
    | Fetched(docs: seq<Option<Blacklist>>, cursorFailed: bool)

  /** The map a refresh builds: each decoded document under its ID, a later one replacing an earlier one. */
  function Snapshot(docs: seq<Option<Blacklist>>): map<string, Blacklist>
    decreases |docs|
  {
    if docs == [] then map[]
    else
      var n := |docs| - 1;
      var m := Snapshot(docs[..n]);
      if docs[n].Some? then m[docs[n].value.id := docs[n].value] else m
  }

  /** A snapshot files every entry under its own ID, and holds only decoded documents. */
  lemma {:induction false} SnapshotKeyed(docs: seq<Option<Blacklist>>)
    ensures forall k :: k in Snapshot(docs) ==> Snapshot(docs)[k].id == k && Some(Snapshot(docs)[k]) in docs
    decreases |docs|
  {
    if docs != [] {
      var n := |docs| - 1;
      SnapshotKeyed(docs[..n]);
      forall k | k in Snapshot(docs[..n]) ensures Some(Snapshot(docs[..n])[k]) in docs {
        assert Some(Snapshot(docs[..n])[k]) in docs[..n];
      }
    }
  }

  /**
   * Every decoded document's ID is in the snapshot, holding the last decoded
   * document with that ID.
   */
  lemma {:induction false} SnapshotLastWins(docs: seq<Option<Blacklist>>, i: int)
    requires 0 <= i < |docs| && docs[i].Some?
    requires forall j :: i < j < |docs| && docs[j].Some? ==> docs[j].value.id != docs[i].value.id
    ensures docs[i].value.id in Snapshot(docs) && Snapshot(docs)[docs[i].value.id] == docs[i].value
    decreases |docs|
  {
    var n := |docs| - 1;
    if i < n {
      SnapshotLastWins(docs[..n], i);
    }
  }

  class BlacklistCache {
    var entries: map<string, Blacklist>
    var refreshing: bool
    /** Whether the current `stopRefresh` channel has been closed. */
    var stopClosed: bool

    /**
     * Every entry sits under its own ID, and while a refresher runs its stop
     * channel is still open (so closing it cannot panic).
     */
    ghost predicate Valid()
      reads this
    {
      (forall k :: k in entries ==> entries[k].id == k) && (refreshing ==> !stopClosed)
    }

    /** `GetBlacklistCache`: the first call creates an empty cache with an open stop channel. */
    constructor()
      ensures Valid()
      ensures entries == map[] && !refreshing && !stopClosed
    {
      entries := map[];
      refreshing := false;
      stopClosed := false;
    }

    /** `Get`: the entry filed under `id`, if any. */
    function Get(id: string): Option<Blacklist>
      reads this
    {
      if id in entries then Some(entries[id]) else None
    }

    /** `IsBlacklisted`: presence, whatever the type. */
    function IsBlacklisted(id: string): (b: bool)
      reads this
      ensures b <==> id in entries
    {
      Get(id).Some?
    }

    /** `IsUserBlacklisted`: present and of type user; the entry comes back only then. */
    function IsUserBlacklisted(userId: string): (r: (bool, Option<Blacklist>))
      reads this
      ensures r.0 <==> userId in entries && entries[userId].kind == UserType
      ensures r.0 ==> r.1 == Some(entries[userId])
      ensures !r.0 ==> r.1 == None
    {
      var e := Get(userId);
      if e.None? || e.value.kind != UserType then (false, None) else (true, e)
    }

    /** `IsGuildBlacklisted`: present and of type guild; the entry comes back only then. */
    function IsGuildBlacklisted(guildId: string): (r: (bool, Option<Blacklist>))
      reads this
      ensures r.0 <==> guildId in entries && entries[guildId].kind == GuildType
      ensures r.0 ==> r.1 == Some(entries[guildId])
      ensures !r.0 ==> r.1 == None
    {
      var e := Get(guildId);
      if e.None? || e.value.kind != GuildType then (false, None) else (true, e)
    }

    /** `Size`. */
    function Size(): nat
      reads this
    {
      |entries|
    }

    /** `GetAll`: every entry once, in map order; as many as `Size`. */
    method GetAll() returns (result: seq<Blacklist>)
      requires Valid()
      ensures |result| == Size()
      ensures forall e :: e in result <==> e in entries.Values
      ensures forall i, j :: 0 <= i < j < |result| ==> result[i].id != result[j].id
    {
      var keys;
      keys, result := MapView.CollectWhere(entries, (e: Blacklist) => true);
      MapView.AllListed(entries, keys);
      forall e | e in entries.Values ensures e in result {
        var k :| k in entries && entries[k] == e;
        var i :| 0 <= i < |keys| && keys[i] == k;
        assert result[i] == e;
      }
    }

    /** `GetByType`: exactly the entries of `kind`, each once. */
    method GetByType(kind: string) returns (result: seq<Blacklist>)
      requires Valid()
      ensures forall e :: e in result <==> e in entries.Values && e.kind == kind
      ensures forall i, j :: 0 <= i < j < |result| ==> result[i].id != result[j].id
    {
      var keys;
      keys, result := MapView.CollectWhere(entries, (e: Blacklist) => e.kind == kind);
      forall e | e in entries.Values && e.kind == kind ensures e in result {
        var k :| k in entries && entries[k] == e;
        var i :| 0 <= i < |keys| && keys[i] == k;
        assert result[i] == e;
      }
    }

    /** `Add`: the entry is filed under its ID, replacing any earlier one. */
    method Add(entry: Blacklist)
      requires Valid()
      modifies this`entries
      ensures Valid()
      ensures entries == old(entries)[entry.id := entry]
      ensures Get(entry.id) == Some(entry)
    {
      entries := entries[entry.id := entry];
    }

    /** `Remove`: the ID is gone; every other entry stays. */
    method Remove(id: string)
      requires Valid()
      modifies this`entries
      ensures Valid()
      ensures entries == old(entries) - {id}
      ensures Get(id) == None
    {
      entries := entries - {id};
    }

    /**
     * `Refresh` (and `InitBlacklistCache`, `RefreshBlacklistCache`): without a
     * data manager or a collection nothing happens and no error is reported;
     * a failed query or a cursor error is reported and leaves the cache as it
     * was; otherwise the cache becomes the snapshot of the decoded documents.
     */
    method Refresh(hasManager: bool, hasCollection: bool, fetch: Fetch) returns (failed: bool)
      requires Valid()
      modifies this`entries
      ensures Valid()
      ensures failed <==> hasManager && hasCollection && (fetch.FindFailed? || fetch.cursorFailed)
      ensures hasManager && hasCollection && fetch.Fetched? && !fetch.cursorFailed ==> entries == Snapshot(fetch.docs)
      ensures !(hasManager && hasCollection && fetch.Fetched? && !fetch.cursorFailed) ==> entries == old(entries)
    {
      if !hasManager || !hasCollection {
        return false;
      }
      if fetch.FindFailed? {
        return true;
      }
      var docs := fetch.docs;
      var newEntries: map<string, Blacklist> := map[];
      var i := 0;
      while i < |docs|
        invariant 0 <= i <= |docs|
        invariant newEntries == Snapshot(docs[..i])
      {
        assert docs[..i + 1][..i] == docs[..i];
        if docs[i].Some? {
          newEntries := newEntries[docs[i].value.id := docs[i].value];
        }
        i := i + 1;
      }
      assert docs[..i] == docs;
      if fetch.cursorFailed {
        return true;
      }
      SnapshotKeyed(docs);
      entries := newEntries;
      return false;
    }

    /**
     * `StartAutoRefresh`: a running refresher is stopped by closing its
     * channel; a new refresher starts with a new, open channel.
     */
    method StartAutoRefresh()
      requires Valid()
      modifies this`refreshing, this`stopClosed
      ensures Valid()
      ensures refreshing && !stopClosed
    {
      if refreshing {
        assert !stopClosed;
        stopClosed := true;
        refreshing := false;
      }
      refreshing := true;
      stopClosed := false;
    }

    /**
     * `StopAutoRefresh`: the channel is closed only when a refresher runs, so
     * a second stop closes nothing.
     */
    method StopAutoRefresh()
      requires Valid()
      modifies this`refreshing, this`stopClosed
      ensures Valid()
      ensures !refreshing
      ensures old(refreshing) ==> stopClosed
      ensures !old(refreshing) ==> stopClosed == old(stopClosed)
    {
      if refreshing {
        assert !stopClosed;
        stopClosed := true;
        refreshing := false;
      }
    }
  }

  /** No ID is blacklisted both as a user and as a guild. */
  lemma UserAndGuildExclusive(c: BlacklistCache, id: string)
    ensures !(c.IsUserBlacklisted(id).0 && c.IsGuildBlacklisted(id).0)
    ensures c.IsUserBlacklisted(id).0 || c.IsGuildBlacklisted(id).0 ==> c.IsBlacklisted(id)
  {
  }
}
