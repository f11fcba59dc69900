/**
 * The data managers' shared cache: one least-recently-used cache for every
 * collection, a map from cache key to document plus a recency list whose
 * front is the entry used last, bounded by the inserting manager's
 * `MaxCacheSize`. Cache keys are built from the query with its keys sorted.
 *
 * Cache changes are specified by functions on `CacheState`; the methods of
 * `DataManager` are proved to follow them, and the functions' contracts say
 * what they keep (a well-formed cache, its size, its bound).
 */
module DataCache {
  import opened Wrappers
  import Text
  import opened Database

  // -----------------------------------------------------------------------
  // Go's ordering of strings (byte by byte), used by `sort.Strings`

  /** `a < b` for Go strings. */
  predicate Below(a: string, b: string)
    decreases |a|
  {
    |b| > 0 && (|a| == 0 || a[0] < b[0] || (a[0] == b[0] && Below(a[1..], b[1..])))
  }

  lemma {:induction false} BelowIrreflexive(a: string)
    ensures !Below(a, a)
    decreases |a|
  {
    if |a| > 0 {
      BelowIrreflexive(a[1..]);
    }
  }

  lemma {:induction false} BelowTransitive(a: string, b: string, c: string)
    requires Below(a, b) && Below(b, c)
    ensures Below(a, c)
    decreases |a|
  {
    if |a| > 0 && a[0] == b[0] && b[0] == c[0] {
      BelowTransitive(a[1..], b[1..], c[1..]);
    }
  }

  lemma {:induction false} BelowTotal(a: string, b: string)
    requires a != b
    ensures Below(a, b) || Below(b, a)
    decreases |a|
  {
    if |a| > 0 && |b| > 0 && a[0] == b[0] {
      assert a == [a[0]] + a[1..] && b == [b[0]] + b[1..];
      BelowTotal(a[1..], b[1..]);
    }
  }

  lemma BelowAsymmetric(a: string, b: string)
    requires Below(a, b)
    ensures !Below(b, a)
  {
    if Below(b, a) {
      BelowTransitive(a, b, a);
      BelowIrreflexive(a);
    }
  }

  predicate StrictlySorted(s: seq<string>) {
    forall i, j :: 0 <= i < j < |s| ==> Below(s[i], s[j])
  }

  predicate Distinct(s: seq<string>) {
    forall i, j :: 0 <= i < j < |s| ==> s[i] != s[j]
  }

  lemma StrictlySortedDistinct(s: seq<string>)
    requires StrictlySorted(s)
    ensures Distinct(s)
  {
    forall i, j | 0 <= i < j < |s| ensures s[i] != s[j] {
      BelowIrreflexive(s[i]);
    }
  }

  /** Puts `x` into its place in a sorted sequence of distinct strings. */
  function InsertSorted(x: string, s: seq<string>): (r: seq<string>)
    requires StrictlySorted(s) && x !in s
    ensures StrictlySorted(r)
    ensures forall y :: y in r <==> y == x || y in s
    ensures |r| == |s| + 1
  {
    if s == [] then [x]
    else if Below(s[0], x) then
      var rest := InsertSorted(x, s[1..]);
      assert forall y :: y in rest ==> Below(s[0], y) by {
        forall y | y in rest ensures Below(s[0], y) {
          if y != x {
            var j :| 0 <= j < |s[1..]| && s[1..][j] == y;
            assert s[j + 1] == y;
          }
        }
      }
      [s[0]] + rest
    else
      BelowTotal(x, s[0]);
      assert forall j :: 0 <= j < |s| ==> Below(x, s[j]) by {
        forall j | 0 <= j < |s| ensures Below(x, s[j]) {
          if j > 0 {
            BelowTransitive(x, s[0], s[j]);
          }
        }
      }
      [x] + s
  }

  /** `sort.Strings` on the distinct keys of a map. */
  function SortKeys(keys: seq<string>): (r: seq<string>)
    requires Distinct(keys)
    ensures StrictlySorted(r)
    ensures forall y :: y in r <==> y in keys
    ensures |r| == |keys|
  {
    if keys == [] then []
    else
      var n := |keys| - 1;
      assert forall i :: 0 <= i < n ==> keys[..n][i] == keys[i];
      assert keys[n] !in keys[..n];
      InsertSorted(keys[n], SortKeys(keys[..n]))
  }

  /** Two strictly sorted sequences with the same elements are the same sequence. */
  lemma {:induction false} SortedUnique(a: seq<string>, b: seq<string>)
    requires StrictlySorted(a) && StrictlySorted(b)
    requires forall y :: y in a <==> y in b
    ensures a == b
    decreases |a|
  {
    assert a == [] <==> b == [] by {
      if a != [] { assert a[0] in b; }
      if b != [] { assert b[0] in a; }
    }
    if a != [] {
      if a[0] != b[0] {
        assert a[0] in a && b[0] in b;
        var j :| 0 <= j < |b| && b[j] == a[0];
        var i :| 0 <= i < |a| && a[i] == b[0];
        assert j > 0 && i > 0;
        BelowAsymmetric(b[0], a[0]);
        assert false;
      }
      StrictlySortedDistinct(a);
      StrictlySortedDistinct(b);
      forall y ensures y in a[1..] <==> y in b[1..] {
        if y in a[1..] {
          var i :| 0 <= i < |a[1..]| && a[1..][i] == y;
          assert y in b && y != b[0];
        }
        if y in b[1..] {
          var i :| 0 <= i < |b[1..]| && b[1..][i] == y;
          assert y in a && y != a[0];
        }
      }
      SortedUnique(a[1..], b[1..]);
    }
  }

  /** The elements of a finite set, in some order. */
  ghost function Enumerate(s: set<string>): (r: seq<string>)
    ensures Distinct(r)
    ensures forall y :: y in r <==> y in s
    decreases s
  {
    if s == {} then []
    else
      var x :| x in s;
      var rest := Enumerate(s - {x});
      [x] + rest
  }

  /** The keys of a query in increasing order. */
  ghost function SortedKeys(s: set<string>): (r: seq<string>)
    ensures StrictlySorted(r)
    ensures forall y :: y in r <==> y in s
  {
    SortKeys(Enumerate(s))
  }

  // -----------------------------------------------------------------------
  // Cache keys

  /** `"k=v"` for each key, in the given order (`fmt.Sprintf("%s=%v", k, query[k])`). */
  function Parts(keys: seq<string>, query: Query): (parts: seq<string>)
    requires forall k :: k in keys ==> k in query
    ensures |parts| == |keys|
  {
    seq(|keys|, i requires 0 <= i < |keys| => keys[i] + "=" + query[keys[i]])
  }

  /** The keys of a map, in whatever order iterating over it yields them. */
  method CollectKeys(query: Query) returns (keys: seq<string>)
    ensures Distinct(keys)
    ensures forall k :: k in keys <==> k in query
  {
    keys := [];
    var remaining := query.Keys;
    while remaining != {}
      invariant Distinct(keys)
      invariant forall k :: k in query.Keys <==> k in remaining || k in keys
      invariant forall k :: k in keys ==> k !in remaining
      decreases remaining
    {
      var k :| k in remaining;
      keys := keys + [k];
      remaining := remaining - {k};
    }
  }

  /** The loop building `parts`: one `k=v` per key, in the order of `keys`. */
  method RenderParts(keys: seq<string>, query: Query) returns (parts: seq<string>)
    requires forall k :: k in keys ==> k in query
    ensures parts == Parts(keys, query)
  {
    parts := [];
    var i := 0;
    while i < |keys|
      invariant 0 <= i <= |keys|
      invariant parts == Parts(keys[..i], query)
    {
      parts := parts + [keys[i] + "=" + query[keys[i]]];
      i := i + 1;
    }
    assert keys[..i] == keys;
  }

  /** The collection label of a key: the collection's name, or "" when the manager has none. */
  function CollectionLabel(collection: Option<Collection>): string
  {
    if collection.Some? then collection.value.name else ""
  }

  /** `generateCacheKey`: `"<collection>:{k1=v1,...}"` with the keys in sorted order. */
  ghost function CacheKey(collection: Option<Collection>, query: Query): (key: string)
    ensures CollectionLabel(collection) + ":{" <= key
    ensures key[|key| - 1] == '}'
  {
    var keys := SortedKeys(query.Keys);
    CollectionLabel(collection) + ":{" + Text.Join(Parts(keys, query), ",") + "}"
  }

  /** The key of a query, given its keys in sorted order. */
  lemma CacheKeyBySortedKeys(collection: Option<Collection>, query: Query, keys: seq<string>)
    requires StrictlySorted(keys) && forall k :: k in keys <==> k in query
    ensures CacheKey(collection, query) == CollectionLabel(collection) + ":{" + Text.Join(Parts(keys, query), ",") + "}"
  {
    SortedUnique(keys, SortedKeys(query.Keys));
  }

  lemma OneFieldRendering()
    ensures Text.Join(Parts(["a"], map["a" := "1,b=2"]), ",") == "a=1,b=2"
  {
    var p := Parts(["a"], map["a" := "1,b=2"]);
    assert p[0] == "a" + "=" + "1,b=2";
    assert p == [p[0]];
  }

  lemma TwoFieldRendering()
    ensures Text.Join(Parts(["a", "b"], map["a" := "1", "b" := "2"]), ",") == "a=1,b=2"
  {
    var p := Parts(["a", "b"], map["a" := "1", "b" := "2"]);
    assert p[0] == "a" + "=" + "1";
    assert p[1] == "b" + "=" + "2";
    assert p == [p[0], p[1]];
    assert Text.Join(p, ",") == p[0] + "," + p[1];
  }

  /**
   * Cache keys are not unique: a value holding "," and "=" reads like two
   * entries, so two different queries share one cache entry.
   */
  lemma CacheKeyCollision()
    ensures var c := Some(Collection("warns"));
      map["a" := "1,b=2"] != map["a" := "1", "b" := "2"]
      && CacheKey(c, map["a" := "1,b=2"]) == CacheKey(c, map["a" := "1", "b" := "2"])
  {
    var c := Some(Collection("warns"));
    var q1: Query := map["a" := "1,b=2"];
    var q2: Query := map["a" := "1", "b" := "2"];
    assert q1 != q2 by { assert "b" in q2 && "b" !in q1; }
    assert StrictlySorted(["a"]);
    CacheKeyBySortedKeys(c, q1, ["a"]);
    assert Below("a", "b");
    assert StrictlySorted(["a", "b"]);
    CacheKeyBySortedKeys(c, q2, ["a", "b"]);
    OneFieldRendering();
    TwoFieldRendering();
  }

  // -----------------------------------------------------------------------
  // The least-recently-used cache

  /** The cache as a value: documents by key, and the keys from most to least recently used. */
  datatype CacheState = CacheState(values: map<string, Document>, order: seq<string>)

  /** The map and the recency list hold the same keys, each once. */
  ghost predicate WellFormed(c: CacheState) {
    Distinct(c.order) && forall k :: k in c.values <==> k in c.order
  }

  /** The recency list without `k`, the rest in order (`list.Remove`). */
  function Without(s: seq<string>, k: string): (r: seq<string>)
    ensures forall x :: x in r <==> x in s && x != k
    ensures k !in s ==> r == s
    ensures Distinct(s) ==> Distinct(r)
    ensures Distinct(s) && k in s ==> |r| == |s| - 1
  {
    if s == [] then []
    else if s[0] == k then
      var rest := Without(s[1..], k);
      assert Distinct(s) ==> k !in s[1..];
      rest
    else
      var rest := Without(s[1..], k);
      assert s == [s[0]] + s[1..];
      assert Distinct(s) ==> s[0] !in s[1..] && Distinct(s[1..]);
      assert Distinct(s) ==> s[0] !in rest;
      [s[0]] + rest
  }

  /** A distinct list has as many elements as its set. */
  lemma {:induction false} DistinctCardinality(s: seq<string>)
    requires Distinct(s)
    ensures |set x | x in s| == |s|
  {
    if s != [] {
      var tail := s[1..];
      assert forall x :: x in tail ==> x != s[0];
      assert (set x | x in s) == {s[0]} + (set x | x in tail);
      DistinctCardinality(tail);
    }
  }

  /** In a well-formed cache the map and the list have the same size. */
  lemma SizeAgrees(c: CacheState)
    requires WellFormed(c)
    ensures |c.values| == |c.order|
  {
    DistinctCardinality(c.order);
    assert c.values.Keys == set x | x in c.order;
  }

  function EmptyCache(): (c: CacheState)
    ensures WellFormed(c) && |c.order| == 0
  {
    CacheState(map[], [])
  }

  /** A hit: the entry moves to the front (`MoveToFront`); nothing else changes. */
  function Touch(c: CacheState, key: string): (r: CacheState)
    requires WellFormed(c) && key in c.values
    ensures WellFormed(r)
    ensures r.values == c.values
    ensures |r.order| == |c.order| && r.order[0] == key
  {
    CacheState(c.values, [key] + Without(c.order, key))
  }

  /** `PushFront` of a key not yet cached keeps the cache well formed. */
  lemma PushFrontWellFormed(c: CacheState, key: string, doc: Document)
    requires WellFormed(c) && key !in c.values
    ensures WellFormed(CacheState(c.values[key := doc], [key] + c.order))
  {
    var order := [key] + c.order;
    assert forall i :: 0 <= i < |c.order| ==> order[i + 1] == c.order[i];
  }

  /** The least recently used key: the back of the recency list. */
  function Oldest(c: CacheState): string
    requires |c.order| > 0
  {
    c.order[|c.order| - 1]
  }

  /** Removing the back of the list and its key from the map keeps the cache well formed. */
  lemma DropOldestWellFormed(c: CacheState)
    requires WellFormed(c) && |c.order| > 0
    ensures WellFormed(CacheState(c.values - {Oldest(c)}, c.order[..|c.order| - 1]))
  {
    var n := |c.order| - 1;
    forall k | k in c.order && k != Oldest(c) ensures k in c.order[..n] {
      var i :| 0 <= i < |c.order| && c.order[i] == k;
      assert c.order[..n][i] == k;
    }
  }

  /** Whether inserting one more key into `c` goes over a positive `maxSize`. */
  predicate Overflows(c: CacheState, maxSize: int) {
    maxSize > 0 && |c.order| + 1 > maxSize
  }

  /**
   * A miss loaded from the database, or a new key written: the entry goes in
   * front (`PushFront`); when that makes the cache longer than a positive
   * `maxSize`, the least recently used entry is evicted. The new entry
   * survives, and a cache within the bound stays within it.
   */
  function Insert(c: CacheState, key: string, doc: Document, maxSize: int): (r: CacheState)
    requires WellFormed(c) && key !in c.values
    ensures WellFormed(r)
    ensures key in r.values && r.values[key] == doc && r.order[0] == key
    ensures |r.order| == if Overflows(c, maxSize) then |c.order| else |c.order| + 1
    ensures maxSize > 0 && |c.order| <= maxSize ==> |r.order| <= maxSize
    ensures Overflows(c, maxSize) ==> r.values == c.values[key := doc] - {Oldest(c)}
    ensures !Overflows(c, maxSize) ==> r.values == c.values[key := doc]
  {
    var pushed := CacheState(c.values[key := doc], [key] + c.order);
    PushFrontWellFormed(c, key, doc);
    if maxSize > 0 && |pushed.order| > maxSize then
      DropOldestWellFormed(pushed);
      assert Oldest(pushed) == Oldest(c) && Oldest(c) != key;
      CacheState(pushed.values - {Oldest(pushed)}, pushed.order[..|pushed.order| - 1])
    else
      pushed
  }

  /** A write to a key already cached: the value is replaced and the entry moves to the front. */
  function Replace(c: CacheState, key: string, doc: Document): (r: CacheState)
    requires WellFormed(c) && key in c.values
    ensures WellFormed(r)
    ensures r.values == c.values[key := doc]
    ensures |r.order| == |c.order| && r.order[0] == key
  {
    CacheState(c.values[key := doc], [key] + Without(c.order, key))
  }

  /** `Delete`'s cache step: the key leaves both the map and the list. */
  function Remove(c: CacheState, key: string): (r: CacheState)
    requires WellFormed(c)
    ensures WellFormed(r)
    ensures key !in r.values
    ensures forall k :: k != key ==> (k in r.values <==> k in c.values)
    ensures forall k :: k in r.values ==> r.values[k] == c.values[k]
    ensures |r.order| == if key in c.values then |c.order| - 1 else |c.order|
  {
    CacheState(c.values - {key}, Without(c.order, key))
  }

  /** The process-wide cache shared by every data manager. */
  class CacheManager {
    var values: map<string, Document>
    var order: seq<string>

    ghost function State(): CacheState
      reads this
    {
      CacheState(values, order)
    }

    ghost predicate Valid()
      reads this
    {
      WellFormed(State())
    }

    constructor()
      ensures Valid() && State() == EmptyCache()
    {
      values := map[];
      order := [];
    }

    /** `cacheList.PushFront` of a new entry, and the map pointing at it. */
    method PushFront(key: string, doc: Document)
      requires Valid() && key !in values
      modifies this
      ensures Valid()
      ensures values == old(values)[key := doc] && order == [key] + old(order)
    {
      PushFrontWellFormed(State(), key, doc);
      order := [key] + order;
      values := values[key := doc];
    }

    /** `cacheList.MoveToFront` of a cached entry. */
    method MoveToFront(key: string)
      requires Valid() && key in values
      modifies this
      ensures Valid()
      ensures State() == Touch(old(State()), key)
    {
      order := [key] + Without(order, key);
    }

    /** A new value for a cached entry (`elem.Value = entry`), which then moves to the front. */
    method ReplaceValue(key: string, doc: Document)
      requires Valid() && key in values
      modifies this
      ensures Valid()
      ensures State() == Replace(old(State()), key, doc)
    {
      values := values[key := doc];
      order := [key] + Without(order, key);
    }

    /** `cacheList.Remove` and `delete` of a key, when it is cached. */
    method RemoveKey(key: string)
      requires Valid()
      modifies this
      ensures Valid()
      ensures State() == Remove(old(State()), key)
    {
      if key in values {
        order := Without(order, key);
        values := values - {key};
      }
    }

    /** Removes the back entry of the list (`cacheList.Back`) from the list and the map. */
    method EvictOldest()
      requires Valid() && |order| > 0
      modifies this
      ensures Valid()
      ensures values == old(values) - {Oldest(old(State()))} && order == old(order)[..|old(order)| - 1]
    {
      DropOldestWellFormed(State());
      var oldest := order[|order| - 1];
      values := values - {oldest};
      order := order[..|order| - 1];
    }
  }

  /** What a lookup in the collection found. */
  datatype FindAnswer = Found(doc: Document) | NoDocuments | FindFailed

  /** What an upserting write in the collection answered. */
  datatype UpdateAnswer = Updated(doc: Document) | UpdateFailed

  datatype DbError = NotConnected | DriverError

  /** A manager's answer: a document or none (Go's `nil, nil`), or an error. */
  datatype Outcome = Ok(doc: Option<Document>) | Err(error: DbError)

  const DefaultMaxCacheSize := 1000

  /**
   * The name an offline write is queued under, as `dm.collection.Name()`
   * reads it: a manager without a collection handle has none (the call
   * dereferences a nil handle).
   */
  function QueuedNameAsWritten(collection: Option<Collection>): (name: Option<string>)
    ensures name.Some? <==> collection.Some?
  {
    if collection.Some? then Some(collection.value.name) else None
  }

  /** A cached view of one collection. */
  class DataManager {
    /** The collection name the manager was created for. */
    const name: string
    const collection: Option<Collection>
    const db: Database
    const cache: CacheManager
    const maxCacheSize: int

    ghost predicate Valid()
      reads this, db, cache
    {
      db.Valid() && cache.Valid()
      && (collection.Some? ==> collection.value.name == name)
    }

    /** The key `generateCacheKey` gives `query`. */
    ghost function KeyOf(query: Query): string
    {
      CacheKey(collection, query)
    }

    /**
     * `NewDataManager`: the collection handle is looked up once, now;
     * `MaxCacheSize` is 1000 unless options are given.
     */
    constructor(name: string, db: Database, cache: CacheManager, maxCacheSize: Option<int>)
      requires db.Valid() && cache.Valid()
      modifies db`collections
      ensures Valid()
      ensures this.name == name && this.db == db && this.cache == cache
      ensures this.maxCacheSize == if maxCacheSize.Some? then maxCacheSize.value else DefaultMaxCacheSize
      ensures collection.Some? <==> Resolves(name, old(db.collections).Keys, db.hasDb)
    {
      var col := db.GetCollection(name);
      this.name := name;
      this.collection := col;
      this.db := db;
      this.cache := cache;
      this.maxCacheSize := if maxCacheSize.Some? then maxCacheSize.value else DefaultMaxCacheSize;
    }

    /**
     * `generateCacheKey`: the query's keys are gathered in whatever order the
     * map yields them, sorted, rendered as `k=v` and joined. The key does not
     * depend on that order.
     */
    method GenerateCacheKey(query: Query) returns (key: string)
      ensures key == KeyOf(query)
    {
      var collName := "";
      if collection.Some? {
        collName := collection.value.name;
      }
      var keys := CollectKeys(query);
      keys := SortKeys(keys);
      SortedUnique(keys, SortedKeys(query.Keys));
      var parts := RenderParts(keys, query);
      key := collName + ":{" + Text.Join(parts, ",") + "}";
    }

    /**
     * `Get`: a cached document is returned and its entry moved to the front;
     * on a miss the database is asked (an error when it is offline or the
     * manager has no collection), and a found document is cached in front,
     * with eviction. A document that does not exist is `Ok(None)`.
     */
    method Get(query: Query, answer: FindAnswer) returns (r: Outcome)
      requires Valid()
      modifies cache
      ensures Valid()
      ensures KeyOf(query) in old(cache.values) ==>
        r == Ok(Some(old(cache.values)[KeyOf(query)])) && cache.State() == Touch(old(cache.State()), KeyOf(query))
      ensures KeyOf(query) !in old(cache.values) && !(db.isConnected && collection.Some?) ==>
        r == Err(NotConnected) && cache.State() == old(cache.State())
      ensures KeyOf(query) !in old(cache.values) && db.isConnected && collection.Some? ==>
        match answer
        case Found(doc) =>
          r == Ok(Some(doc)) && cache.State() == Insert(old(cache.State()), KeyOf(query), doc, maxCacheSize)
        case NoDocuments => r == Ok(None) && cache.State() == old(cache.State())
        case FindFailed => r == Err(DriverError) && cache.State() == old(cache.State())
    {
      var key := GenerateCacheKey(query);
      if key in cache.values {
        var doc := cache.values[key];
        cache.MoveToFront(key);
        return Ok(Some(doc));
      }
      if !db.isConnected || collection.None? {
        return Err(NotConnected);
      }
      match answer {
        case NoDocuments => return Ok(None);
        case FindFailed => return Err(DriverError);
        case Found(doc) =>
          PushAndEvict(key, doc);
          return Ok(Some(doc));
      }
    }

    /** `PushFront` of a new entry, then eviction of the back one when over `MaxCacheSize`. */
    method PushAndEvict(key: string, doc: Document)
      requires Valid() && key !in cache.values
      modifies cache
      ensures Valid()
      ensures cache.State() == Insert(old(cache.State()), key, doc, maxCacheSize)
    {
      ghost var before := cache.State();
      cache.PushFront(key, doc);
      if maxCacheSize > 0 && |cache.order| > maxCacheSize {
        assert Oldest(cache.State()) == Oldest(before);
        cache.EvictOldest();
      }
    }

    /**
     * `Set`: offline (or without a collection handle) the write is queued as
     * a "set" and the answer is `Ok(None)`; a failed write is queued too and
     * reported; a successful one caches the stored document, replacing a
     * cached entry in place or inserting a new one in front.
     */
    method Set(query: Query, data: Document, answer: UpdateAnswer) returns (r: Outcome)
      requires Valid()
      modifies cache, db`writeQueue
      ensures Valid()
      ensures !(old(db.isConnected) && collection.Some?) ==>
        r == Ok(None) && cache.State() == old(cache.State())
        && db.writeQueue == old(db.writeQueue) + [QueuedOperation(name, query, "set", Some(data))]
      ensures old(db.isConnected) && collection.Some? && answer.UpdateFailed? ==>
        r == Err(DriverError) && cache.State() == old(cache.State())
        && db.writeQueue == old(db.writeQueue) + [QueuedOperation(name, query, "set", Some(data))]
      ensures old(db.isConnected) && collection.Some? && answer.Updated? ==>
        r == Ok(Some(answer.doc)) && db.writeQueue == old(db.writeQueue)
        && cache.State() == (if KeyOf(query) in old(cache.values)
                             then Replace(old(cache.State()), KeyOf(query), answer.doc)
                             else Insert(old(cache.State()), KeyOf(query), answer.doc, maxCacheSize))
    {
      var key := GenerateCacheKey(query);
      if !db.isConnected || collection.None? {
        db.AddToWriteQueue(QueuedOperation(name, query, "set", Some(data)));
        return Ok(None);
      }
      match answer {
        case UpdateFailed =>
          db.AddToWriteQueue(QueuedOperation(name, query, "set", Some(data)));
          return Err(DriverError);
        case Updated(doc) =>
          if key in cache.values {
            cache.ReplaceValue(key, doc);
          } else {
            PushAndEvict(key, doc);
          }
          return Ok(Some(doc));
      }
    }

    /**
     * `Delete`: the key leaves the cache first, whatever happens next;
     * offline the delete is queued and `None` (no error) returned; a failed
     * delete is queued and reported.
     */
    method Delete(query: Query, deleteOk: bool) returns (err: Option<DbError>)
      requires Valid()
      modifies cache, db`writeQueue
      ensures Valid()
      ensures cache.State() == Remove(old(cache.State()), KeyOf(query))
      ensures !(old(db.isConnected) && collection.Some?) ==>
        err == None && db.writeQueue == old(db.writeQueue) + [QueuedOperation(name, query, "delete", None)]
      ensures old(db.isConnected) && collection.Some? && !deleteOk ==>
        err == Some(DriverError) && db.writeQueue == old(db.writeQueue) + [QueuedOperation(name, query, "delete", None)]
      ensures old(db.isConnected) && collection.Some? && deleteOk ==>
        err == None && db.writeQueue == old(db.writeQueue)
    {
      var key := GenerateCacheKey(query);
      cache.RemoveKey(key);
      if !db.isConnected || collection.None? {
        db.AddToWriteQueue(QueuedOperation(name, query, "delete", None));
        return None;
      }
      if !deleteOk {
        db.AddToWriteQueue(QueuedOperation(name, query, "delete", None));
        return Some(DriverError);
      }
      return None;
    }

    /** `ClearCache`: the shared cache is emptied, for every manager. */
    method ClearCache()
      requires Valid()
      modifies cache
      ensures Valid()
      ensures cache.State() == EmptyCache()
    {
      cache.values := map[];
      cache.order := [];
    }

    /** `CacheSize`: the length of the recency list, which is also the number of cached keys. */
    method CacheSize() returns (n: int)
      requires Valid()
      ensures n == |cache.order| && n == |cache.values|
    {
      SizeAgrees(cache.State());
      n := |cache.order|;
    }
  }

  /**
   * A manager created before the database was ever opened has no collection
   * handle, and as written its offline `Set` and `Delete` find no name to
   * queue the write under.
   */
  method OfflineWriteBeforeFirstConnect() returns (queuedName: Option<string>, configured: string)
    ensures configured == "warns" && queuedName == None
  {
    var db := new Database();
    var cache := new CacheManager();
    var dm := new DataManager("warns", db, cache, None);
    queuedName := QueuedNameAsWritten(dm.collection);
    configured := dm.name;
  }
}
