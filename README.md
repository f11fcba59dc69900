# PancyBotGo core, modelled in Dafny

PancyBotGo is a Discord bot written in Go. It plays music through Lavalink
nodes, keeps premium subscriptions and one-shot redeem codes, blacklists
users and guilds, records moderation warnings, and sits behind a small web
server with a per-IP rate limiter. Its data goes to MongoDB through an LRU
cache and an offline write queue.

This project models the parts of the bot whose behaviour can be stated
exactly:

- the per-guild player state machine and the node bookkeeping of the
  Lavalink client;
- the LRU cache of the data managers and their canonical cache keys;
- the offline write queue of the database layer;
- premium records and redeem codes;
- the two blacklist caches;
- MQTT topic-filter matching and the request/response topics;
- the logger's level tables and routing;
- configuration defaults;
- the command builder, the command collection, name resolution and
  registration;
- the premium and blacklist checks run before a command;
- the rate limiter;
- the music, developer (blacklist, code deletion, listing and generation)
  and moderation (warn, remove warn) command handlers.

## How it is modelled

- Every source file has one Dafny module. `wrappers.dfy`, `text.dfy`,
  `replies.dfy`, `paging.dfy` and `mapview.dfy` hold shared helpers: Option,
  byte-string helpers, embeds and choices, paging and sequence mapping, and
  listing a map's values.
- State the Go code updates in place is a `class`: the Lavalink `Player`,
  `Node` and `LavalinkClient`, the cache manager, the database handle, the
  blacklist caches, the command and the command collection, the rate
  limiter. Each of its methods is specified by a function on a value of its
  state, and lemmas about those functions state what the source promises.
- Loops of the source are `while`/`for` loops with invariants, each proved
  equal to a function defined by recursion.
- Go strings are byte strings. A Dafny `char` stands for one byte wherever
  byte lengths matter: the 100-byte autocomplete names spell their emoji and
  accented letters as UTF-8 bytes. Message texts elsewhere keep their
  characters.
- Go map iteration has no order. A loop over a map picks its next key with
  `:|`, and its contract does not depend on the order picked.
- Everything the bot asks of the outside world is a parameter. This covers
  Discord lookups, node HTTP answers, the clock, random bytes and the
  environment. The parameter says whether the call succeeded, or what it
  returned.
- A database read or write made by a command or a service is a parameter
  too: whether it succeeds. A store holds the documents as later reads
  will find them once the write queue has been replayed. A write that fails
  is queued for replay (pkg/database/datamanager.go:222-230), so the store
  holds it and only the answer reports the failure. `dm.Get` hands out the
  cached document itself, so a change made to it before a failed write
  stands as well.

## Model

| member | source | states |
|---|---|---|
| Lavalink.GetTracks | pkg/lavalink/lavalink.go:112-141 | a "search" gives its decoded track list and a "playlist" its decoded playlist's tracks, a "track" exactly its one decoded track; data that does not decode in the shape its load type calls for, and any other load type, give no tracks |
| Lavalink.ClampVolume | pkg/lavalink/lavalink.go:22-25 | the stored volume lies in [0, 1000], equals an in-range input, and is the in-range value closest to the input (see also lines 637-648) |
| Lavalink.StartOrEnqueue | pkg/lavalink/lavalink.go:505-515 | a playing player queues the track at the tail and keeps its current track; an idle one starts the track; either way the pending tracks gain the track at the end and the state stays consistent |
| Lavalink.StopState | pkg/lavalink/lavalink.go:568-575 | stop leaves an idle, consistent player with nothing pending and the volume, pause flag and channels untouched |
| Lavalink.AdvanceQueue | pkg/lavalink/lavalink.go:610-613 | the queue head becomes the current track, the queue shrinks by one keeping its order, IsPlaying is untouched, and the pending tracks lose their head (see also lines 791-796) |
| Lavalink.SkipState | pkg/lavalink/lavalink.go:601-613 | skip drops the head of the pending tracks and keeps the state consistent; on an empty queue it is stop |
| Lavalink.TrackEndState | pkg/lavalink/lavalink.go:790-824 | track end drops the head of the pending tracks; with an empty queue the player is idle with no current track |
| Lavalink.RunKeepsSound | pkg/lavalink/lavalink.go:493-667 | every sequence of play, pause, stop, skip, volume, track-end and position events keeps "playing iff a current track", "queued only while playing" and the volume range (see also lines 783-824) |
| Lavalink.EveryPlayerStaysSound | pkg/lavalink/lavalink.go:382-397 | a player created by GetPlayer stays sound whatever happens to it |
| Lavalink.PlayerUpdateRequest | pkg/lavalink/lavalink.go:319-341 | a playerUpdate frame names a guild only through a string guildId; without one nothing is asked |
| Lavalink.Player.constructor | pkg/lavalink/lavalink.go:390-395 | a new player has volume 100, an empty queue, no current track, and is not playing |
| Lavalink.Player.SetChannels | pkg/lavalink/lavalink.go:495-498 | only the voice and text channel fields change |
| Lavalink.Player.PlayOrQueue | pkg/lavalink/lavalink.go:505-515 | the player's state becomes StartOrEnqueue of the old state |
| Lavalink.Player.Advance | pkg/lavalink/lavalink.go:610-613 | returns the old queue head, and the state becomes AdvanceQueue of the old state (see also lines 791-796) |
| Lavalink.Player.GoIdle | pkg/lavalink/lavalink.go:816-820 | IsPlaying becomes false and the current track nil; nothing else changes |
| Lavalink.Player.Clear | pkg/lavalink/lavalink.go:571-575 | the state becomes StopState of the old state |
| Lavalink.Player.SetPaused | pkg/lavalink/lavalink.go:544-546 | only IsPaused changes, to the given flag |
| Lavalink.Player.SetVolume | pkg/lavalink/lavalink.go:646-648 | only the volume changes |
| Lavalink.Player.SetPosition | pkg/lavalink/lavalink.go:336-340 | only the position changes |
| Lavalink.Node.constructor | pkg/lavalink/lavalink.go:195-201 | a configured node starts disconnected, not reconnecting, with no session ID |
| Lavalink.Node.Connect | pkg/lavalink/lavalink.go:220-270 | a no-op while connected or reconnecting; otherwise connected exactly when the dial succeeds; the session ID is kept |
| Lavalink.Node.HandleDisconnect | pkg/lavalink/lavalink.go:367-379 | the node is disconnected and keeps its session ID |
| Lavalink.Node.HandleReady | pkg/lavalink/lavalink.go:299-308 | the session ID is set only by a string sessionId in the frame |
| Lavalink.Node.UpdatePlayer | pkg/lavalink/lavalink.go:677-722 | succeeds only when connected with a non-empty session ID, and then exactly when the HTTP call does |
| Lavalink.Node.DestroyPlayer | pkg/lavalink/lavalink.go:725-759 | succeeds only when connected with a non-empty session ID, and then exactly when the request is sent |
| Lavalink.LavalinkClient.constructor | pkg/lavalink/lavalink.go:183-209 | no players, no tickers, one fresh disconnected node per configured node |
| Lavalink.LavalinkClient.SendUpdate | pkg/lavalink/lavalink.go:517-536 | the update is delivered iff some node is connected, has a session and accepts it |
| Lavalink.LavalinkClient.DestroyOnNodes | pkg/lavalink/lavalink.go:407-419 | only the first connected node is sent the delete; every earlier node is disconnected |
| Lavalink.LavalinkClient.GetPlayer | pkg/lavalink/lavalink.go:382-397 | returns the registered player unchanged, or registers and returns a fresh player; no other player changes |
| Lavalink.LavalinkClient.DestroyPlayer | pkg/lavalink/lavalink.go:400-420 | the guild's player entry and ticker are removed and nothing else |
| Lavalink.LavalinkClient.StopProgressUpdates | pkg/lavalink/lavalink.go:853-860 | the guild has no ticker afterwards |
| Lavalink.LavalinkClient.StartProgressUpdates | pkg/lavalink/lavalink.go:827-834 | the guild has exactly one ticker afterwards |
| Lavalink.LavalinkClient.Play | pkg/lavalink/lavalink.go:493-539 | the guild's player follows PlayState, which starts or queues the track only when the voice join succeeded; other players are unchanged; the only error is the failed voice join, carrying its cause |
| Lavalink.LavalinkClient.Pause | pkg/lavalink/lavalink.go:542-565 | IsPaused is stored in the guild's player, which is the registered one or a fresh one; the error is returned iff no node accepted the update |
| Lavalink.LavalinkClient.Stop | pkg/lavalink/lavalink.go:568-598 | the player follows StopState and its ticker stops; the error is returned iff no node accepted the update |
| Lavalink.LavalinkClient.Skip | pkg/lavalink/lavalink.go:601-634 | the player follows SkipState; on an empty queue the ticker stops as in Stop; the error is returned iff no node accepted the update |
| Lavalink.LavalinkClient.PlayNext | pkg/lavalink/lavalink.go:610-633 | the player follows AdvanceQueue, and the track is delivered iff some node accepts it (see also lines 791-813) |
| Lavalink.LavalinkClient.SetVolume | pkg/lavalink/lavalink.go:637-667 | the clamped volume is stored; the error is returned iff no node accepted it |
| Lavalink.LavalinkClient.HandleTrackStart | pkg/lavalink/lavalink.go:762-780 | the guild's player is registered with its state unchanged; a ticker starts iff it has a current track; other players and tickers are unchanged |
| Lavalink.LavalinkClient.HandleTrackEnd | pkg/lavalink/lavalink.go:783-824 | the ticker stops and the player follows TrackEndState; other players are unchanged |
| Lavalink.LavalinkClient.HandlePlayerUpdate | pkg/lavalink/lavalink.go:319-341 | only the position of an already registered player changes; no player is created |
| Lavalink.LavalinkClient.HandleMessage | pkg/lavalink/lavalink.go:292-316 | the node's connection flags never change; a "ready" frame with a string sessionId sets the session ID and no other frame changes it; a playerUpdate frame has the effect of HandlePlayerUpdate, an event frame that of HandleEvent, and any other frame leaves players and tickers alone |
| Lavalink.LavalinkClient.HandleEvent | pkg/lavalink/lavalink.go:344-364 | a track start registers the event's guild with its state unchanged and starts its ticker iff it has a current track; a track end makes that player follow TrackEndState and stops its ticker; other players are unchanged, and any other event type changes no player and no ticker |
| Lavalink.LavalinkClient.Disconnect | pkg/lavalink/lavalink.go:959-978 | every node is disconnected and every ticker stopped |
| DataCache.BelowIrreflexive | pkg/database/datamanager.go:102 | the byte-wise string order `sort.Strings` uses is irreflexive |
| DataCache.BelowTransitive | pkg/database/datamanager.go:102 | that order is transitive |
| DataCache.BelowTotal | pkg/database/datamanager.go:102 | any two different strings are ordered one way or the other |
| DataCache.BelowAsymmetric | pkg/database/datamanager.go:102 | that order is asymmetric |
| DataCache.StrictlySortedDistinct | pkg/database/datamanager.go:97-102 | a strictly sorted key list has no repeats |
| DataCache.InsertSorted | pkg/database/datamanager.go:102 | inserting a new key into a sorted list gives a sorted list with one more element and the same keys plus the new one |
| DataCache.SortKeys | pkg/database/datamanager.go:102 | sorting distinct keys gives a strictly sorted list of the same keys |
| DataCache.SortedUnique | pkg/database/datamanager.go:96-102 | two strictly sorted lists of the same keys are equal, so the sorted keys do not depend on the map's iteration order |
| DataCache.Enumerate | pkg/database/datamanager.go:97-100 | the keys of a query, listed once each |
| DataCache.SortedKeys | pkg/database/datamanager.go:97-102 | the query's keys, each once, strictly sorted |
| DataCache.Parts | pkg/database/datamanager.go:105-108 | one `k=v` part per key |
| DataCache.CollectKeys | pkg/database/datamanager.go:97-101 | the key-gathering loop lists every key of the query exactly once, in whatever order the map yields |
| DataCache.RenderParts | pkg/database/datamanager.go:105-108 | the part-building loop yields Parts of the keys in their order |
| DataCache.CacheKey | pkg/database/datamanager.go:92-112 | a key starts with the collection name (empty without a handle) and ":{", and ends with "}" |
| DataCache.CacheKeyBySortedKeys | pkg/database/datamanager.go:92-112 | the key is the collection, ":{", the `k=v` parts in sorted key order joined by ",", and "}" |
| DataCache.OneFieldRendering | pkg/database/datamanager.go:105-111 | the query {a: "1,b=2"} renders as "a=1,b=2" |
| DataCache.TwoFieldRendering | pkg/database/datamanager.go:105-111 | the query {a: "1", b: "2"} renders as "a=1,b=2" |
| DataCache.CacheKeyCollision | pkg/database/datamanager.go:90-112 | two different queries get the same cache key, so they share one cache entry |
| DataCache.Without | pkg/database/datamanager.go:266-267 | removing a key from the recency list keeps the other keys in order and shortens a list that held it by one |
| DataCache.DistinctCardinality | pkg/database/datamanager.go:309-313 | a list without repeats is as long as its set of keys |
| DataCache.SizeAgrees | pkg/database/datamanager.go:309-313 | in a well-formed cache the map and the recency list have the same size |
| DataCache.EmptyCache | pkg/database/datamanager.go:38-41 | the empty cache is well formed with nothing in the list (see also lines 300-306) |
| DataCache.Touch | pkg/database/datamanager.go:119-128 | a hit moves the key to the front; the values and the size are unchanged |
| DataCache.PushFrontWellFormed | pkg/database/datamanager.go:150-152 | pushing a new key in front keeps the map and the list in agreement (see also lines 242-243) |
| DataCache.DropOldestWellFormed | pkg/database/datamanager.go:158-165 | dropping the back of the list and its key keeps them in agreement (see also lines 246-254) |
| DataCache.Insert | pkg/database/datamanager.go:148-165 | a new key goes in front with its document; over a positive bound the least recently used entry is evicted; a cache within the bound stays within it (see also lines 242-254) |
| DataCache.Replace | pkg/database/datamanager.go:239-241 | a cached key gets the new value and moves to the front; the size is unchanged |
| DataCache.Remove | pkg/database/datamanager.go:264-270 | the key leaves both the map and the list; every other entry stays |
| DataCache.CacheManager.constructor | pkg/database/datamanager.go:38-41 | the shared cache starts empty |
| DataCache.CacheManager.PushFront | pkg/database/datamanager.go:150-152 | the new key is mapped to its document and put at the front |
| DataCache.CacheManager.MoveToFront | pkg/database/datamanager.go:123-124 | the state becomes Touch of the old state |
| DataCache.CacheManager.ReplaceValue | pkg/database/datamanager.go:239-241 | the state becomes Replace of the old state |
| DataCache.CacheManager.RemoveKey | pkg/database/datamanager.go:264-270 | the state becomes Remove of the old state |
| DataCache.CacheManager.EvictOldest | pkg/database/datamanager.go:158-164 | the back key leaves the list and the map |
| DataCache.QueuedNameAsWritten | pkg/database/datamanager.go:201-207 | as written, an offline write has a name to queue under only when the manager has a collection handle (see also lines 272-277) |
| DataCache.DataManager.constructor | pkg/database/datamanager.go:70-88 | the collection handle is looked up once at creation, and MaxCacheSize is 1000 unless options are given |
| DataCache.DataManager.GenerateCacheKey | pkg/database/datamanager.go:92-112 | the key built by the loops is CacheKey of the query, whatever order the map yields its keys in |
| DataCache.DataManager.Get | pkg/database/datamanager.go:115-168 | a hit returns the cached document and touches it; an offline miss is an error; a found document is inserted with eviction; no document or a driver error leaves the cache alone |
| DataCache.DataManager.PushAndEvict | pkg/database/datamanager.go:148-165 | the cache becomes Insert of the old cache |
| DataCache.DataManager.Set | pkg/database/datamanager.go:198-258 | offline, a "set" is queued under the manager's collection name and nothing is returned; a failed write is queued and reported; a stored document replaces or is inserted in the cache |
| DataCache.DataManager.Delete | pkg/database/datamanager.go:261-297 | the key leaves the cache first; offline the "delete" is queued with no error; a failed delete is queued and reported |
| DataCache.DataManager.ClearCache | pkg/database/datamanager.go:300-306 | the shared cache is empty afterwards |
| DataCache.DataManager.CacheSize | pkg/database/datamanager.go:309-313 | the length of the list, which is also the number of cached keys |
| DataCache.OfflineWriteBeforeFirstConnect | pkg/database/datamanager.go:77-88 | a manager created before the database opened has no handle, so as written its offline write has no name to queue under (see also lines 201-207) |
| Database.FailedOpsFromBatch | pkg/database/database.go:248-278 | what is requeued comes from the replayed batch, is never longer than it, and is a "set" or a "delete" |
| Database.FailedOpsAppend | pkg/database/database.go:248-278 | replaying a batch in two parts requeues the failures of the first part, then those of the second, each in order |
| Database.FailedOpsSingle | pkg/database/database.go:251-275 | one operation is requeued exactly when it is a "set" or "delete" on a collection that resolves and its replay fails |
| Database.AllReplayedEmptiesQueue | pkg/database/database.go:248-282 | when every replay succeeds the queue ends up empty |
| Database.FailedOpsMembers | pkg/database/database.go:251-275 | an operation is requeued iff it is a write on a resolving collection whose replay failed; a missing collection or another operation name drops it |
| Database.Database.constructor | pkg/database/database.go:61-68 | a new database is disconnected, with nothing queued and nothing memoised |
| Database.Database.Connect | pkg/database/database.go:71-118 | a connected database returns at once; otherwise it is connected iff dial and ping succeed, and then the reconnect ticker is stopped |
| Database.Database.HandleDisconnection | pkg/database/database.go:121-144 | a no-op when not connected; otherwise the database goes offline and the reconnect ticker runs |
| Database.Database.GetCollection | pkg/database/database.go:206-224 | a memoised handle is returned as is; without an open handle nothing is returned or memoised; otherwise a new handle is memoised |
| Database.Database.AddToWriteQueue | pkg/database/database.go:227-231 | the operation is appended at the tail and nothing else changes |
| Database.Database.SyncOfflineWrites | pkg/database/database.go:234-283 | an empty queue is a no-op; afterwards the queue holds exactly the failed writes in their original order |
| MapView.CollectWhere | pkg/database/blacklist_cache.go:188-211 | ranging over a map yields each kept key once, with its value, and misses no kept key |
| MapView.AllListed | pkg/database/blacklist_cache.go:188-197 | a listing of every value is as long as the map (see also lines 230-234) |
| MapView.DistinctSize | pkg/database/blacklist_cache.go:230-234 | keys listed once each are as many as their set |
| Premium.IsRecordExpired | pkg/database/premium_service.go:34-39 | a permanent record never expires; any other expires exactly when its expiry time is at or before now |
| Premium.GetPremium | pkg/database/premium_service.go:41-59 | no manager and a failed lookup are errors that change nothing; an expired record is deleted and reported absent; an active one is returned (see also lines 105-123) |
| Premium.IsPremium | pkg/database/premium_service.go:61-67 | true exactly when an active record exists; an error exactly when the manager is missing or the lookup fails; the same store effect as the lookup (see also lines 125-131) |
| Premium.GrantPremium | pkg/database/premium_service.go:69-95 | no manager is an error; a non-permanent grant needs a positive duration; a permanent record expires at 0, any other now plus the duration in whole milliseconds, overwriting any earlier record; a failed write is reported and its record still lands (see also lines 133-159) |
| Premium.RemovePremium | pkg/database/premium_service.go:97-103 | the record is deleted and a failed deletion is reported; without a manager nothing changes (see also lines 161-167) |
| Premium.GrantMakesPremium | pkg/database/premium_service.go:61-95 | a grant of at least a millisecond, or a permanent one, makes the holder premium at the time of the grant, even when its write reported a failure |
| Premium.SubMillisecondGrantIsExpired | pkg/database/premium_service.go:78-81 | a grant shorter than a millisecond is stored already expired |
| Premium.ExpiryIsFinal | pkg/database/premium_service.go:41-67 | once a lookup finds no premium, a later lookup finds none either |
| Premium.CreatePremiumCode | pkg/database/premium_service.go:185-214 | no manager is an error; only a lookup that succeeds and finds the code refuses it, with nothing written; otherwise the code is stored unclaimed and created now, and a failed write is reported while the code still lands |
| Premium.FailedLookupOverwritesCode | pkg/database/premium_service.go:192-196 | a failed lookup is not a refusal: a claimed code is overwritten by a fresh unclaimed one (see also lines 208-211) |
| Premium.GetPremiumCode | pkg/database/premium_service.go:217-234 | no manager and a failed lookup are errors; otherwise the stored code, or CodeNotFound when there is none |
| Premium.RedeemPremiumCode | pkg/database/premium_service.go:237-276 | a failed lookup, a missing code and a claimed code are refused with nothing written; otherwise the cached code is claimed by the caller, which stands even when its write fails (then the error is returned and nothing granted); after a successful write a user code grants its days or permanent premium, and a refused or failed grant is the answer |
| Premium.RedeemPremiumCodeForGuild | pkg/database/premium_service.go:279-321 | the lookup and the claim are checked first, then a non-guild code is refused unwritten, then the code is claimed (even when that write fails, which is reported) and after a successful write the guild is granted |
| Premium.RedeemAtMostOnce | pkg/database/premium_service.go:250-262 | a redeem that reaches the claim leaves the code claimed whatever its write and grant answered, and a second redeem by anyone is refused as already claimed |
| Premium.FailedClaimWriteLosesCode | pkg/database/premium_service.go:254-264 | when the claim's write fails the claimant is told so and granted nothing, and a later redeem is still refused as already claimed (with pkg/database/datamanager.go:222-230) |
| Premium.GuildRedeemAtMostOnce | pkg/database/premium_service.go:292-310 | the same for guild redeems, and for a user redeem after a guild redeem |
| Premium.RedeemGrantsUserPremium | pkg/database/premium_service.go:264-273 | a successful user-code redeem makes the claimant premium, for good or, for a code of at most 106751 days, until exactly that many days from now |
| Premium.ZeroDayUserCodeConsumed | pkg/database/premium_service.go:254-273 | a non-permanent user code of zero days or fewer is marked claimed although its grant is refused, and no user record changes |
| Premium.Int64 | pkg/database/premium_service.go:268 | Go's `int64` arithmetic: the result lies in [-2^63, 2^63), equals an in-range value, and wraps a value up to 2^63 beyond by 2^64 |
| Premium.CodeDuration | pkg/database/premium_service.go:268 | the code's duration in nanoseconds: exact for at most 106751 days, negative for 106752 to 213503 days (see also line 314) |
| Premium.OverlongUserCodeConsumed | pkg/database/premium_service.go:264-273 | a non-permanent user code of 106752 to 213503 days wraps to a negative duration, so it is consumed and its grant refused |
| Blacklists.SnapshotKeyed | pkg/database/blacklist_cache.go:87-95 | a refreshed map files every entry under its own ID and holds only decoded documents |
| Blacklists.SnapshotLastWins | pkg/database/blacklist_cache.go:87-95 | a decoded document is in the refreshed map under its ID unless a later document has the same ID |
| Blacklists.BlacklistCache.constructor | pkg/database/blacklist_cache.go:29-37 | the cache starts empty, not refreshing, with an open stop channel |
| Blacklists.BlacklistCache.IsBlacklisted | pkg/database/blacklist_cache.go:164-167 | true exactly when the ID is present, whatever its type |
| Blacklists.BlacklistCache.IsUserBlacklisted | pkg/database/blacklist_cache.go:170-176 | true iff the ID is present with type user; the entry is returned only then |
| Blacklists.BlacklistCache.IsGuildBlacklisted | pkg/database/blacklist_cache.go:179-185 | true iff the ID is present with type guild; the entry is returned only then |
| Blacklists.BlacklistCache.GetAll | pkg/database/blacklist_cache.go:188-197 | every entry exactly once, as many as Size (see also lines 230-234) |
| Blacklists.BlacklistCache.GetByType | pkg/database/blacklist_cache.go:200-211 | exactly the entries of that type, each once |
| Blacklists.BlacklistCache.Add | pkg/database/blacklist_cache.go:214-219 | the entry is filed under its ID, replacing any earlier one, and Get then returns it |
| Blacklists.BlacklistCache.Remove | pkg/database/blacklist_cache.go:222-227 | the ID is absent afterwards and every other entry is unchanged |
| Blacklists.BlacklistCache.Refresh | pkg/database/blacklist_cache.go:64-107 | only a complete fetch replaces the entries, with the snapshot keyed by ID; a missing manager or collection, or a fetch or cursor error, leaves the cache untouched |
| Blacklists.BlacklistCache.StartAutoRefresh | pkg/database/blacklist_cache.go:111-141 | the cache is refreshing with an open stop channel |
| Blacklists.BlacklistCache.StopAutoRefresh | pkg/database/blacklist_cache.go:144-152 | the cache is not refreshing; the channel is closed only by the first stop, so a second stop closes nothing |
| Blacklists.UserAndGuildExclusive | pkg/database/blacklist_cache.go:164-185 | no ID is blacklisted both as a user and as a guild, and either implies plain presence |
| BlacklistService.SetResult | pkg/database/datamanager.go:201-211 | Set hands back the document only when it was written; offline it hands back nil (see also lines 238-257) |
| BlacklistService.ByIDKeyed | pkg/database/blacklist_service.go:87-96 | the refreshed cache files each fetched entry under its own ID and holds every fetched ID |
| BlacklistService.AddToCacheAsWritten | pkg/database/blacklist_service.go:151-157 | as written, caching the pointer Set returned panics exactly when that pointer is nil (see also lines 103-107) |
| BlacklistService.OfflineAddPanics | pkg/database/blacklist_service.go:151-157 | an offline add gets nil from Set and so, as written, dereferences nil |
| BlacklistService.BlacklistCache.constructor | pkg/database/blacklist_service.go:32-35 | the package cache starts empty, with no ticker and an open done channel |
| BlacklistService.BlacklistCache.IsBlacklisted | pkg/database/blacklist_service.go:195-198 | plain presence, whatever the type, with the entry when present |
| BlacklistService.BlacklistCache.GetBlacklistEntry | pkg/database/blacklist_service.go:186-192 | the cached entry, or EntryNotFound when the ID is absent |
| BlacklistService.BlacklistCache.AddToBlacklist | pkg/database/blacklist_service.go:132-160 | a cached ID is refused with nothing written; no manager or a failed write changes nothing; otherwise the entry is cached and the ID is blacklisted, also when the write was only queued |
| BlacklistService.BlacklistCache.RemoveFromBlacklist | pkg/database/blacklist_service.go:163-183 | an uncached ID is EntryNotFound; a missing manager or a database error leaves the cache unchanged; success removes exactly that ID |
| BlacklistService.BlacklistCache.GetAllBlacklistEntries | pkg/database/blacklist_service.go:211-220 | every cached entry once |
| BlacklistService.BlacklistCache.GetBlacklistEntriesByType | pkg/database/blacklist_service.go:223-234 | exactly the cached entries whose type matches, each once |
| BlacklistService.BlacklistCache.RefreshBlacklistCache | pkg/database/blacklist_service.go:76-100 | no manager or a failed fetch changes nothing; otherwise the cache is the fetched entries keyed by ID |
| BlacklistService.BlacklistCache.StartBlacklistCacheRefresh | pkg/database/blacklist_service.go:44-63 | a running ticker is created |
| BlacklistService.BlacklistCache.StopBlacklistCacheRefresh | pkg/database/blacklist_service.go:66-73 | the done channel is closed and the ticker stopped by the first call only; later calls change nothing |
| BlacklistService.TypeIgnored | pkg/database/blacklist_service.go:195-208 | the user and guild lookups give exactly the same answer as plain presence |
| Mqtt.Split | pkg/mqtt/mqtt.go:261-262 | splitting on "/" yields at least one level, none holding a "/" |
| Mqtt.JoinSplit | pkg/mqtt/mqtt.go:261-262 | joining the levels with "/" gives the topic back |
| Mqtt.SplitInjective | pkg/mqtt/mqtt.go:261-262 | two topics with the same levels are the same topic |
| Mqtt.TopicMatch | pkg/mqtt/mqtt.go:260-291 | the index loop with its early returns computes the level-wise match of pattern and topic |
| Mqtt.MatchReflexive | pkg/mqtt/mqtt.go:260-291 | every pattern matches itself |
| Mqtt.WildcardFreeMatch | pkg/mqtt/mqtt.go:283-290 | without wildcards, levels match exactly when they are equal |
| Mqtt.WildcardFreeTopicMatch | pkg/mqtt/mqtt.go:260-291 | for a pattern without wildcards, topicMatch is string equality |
| Mqtt.SingleLevelAnyValue | pkg/mqtt/mqtt.go:279-281 | a "+" at level i accepts any value of topic level i, the empty level included |
| Mqtt.MultiLevelAcceptsRest | pkg/mqtt/mqtt.go:269-271 | a "#" at level i accepts every topic whose first i levels match, with or without further levels, even when it is not the last level |
| Mqtt.LevelCountMismatch | pkg/mqtt/mqtt.go:274-276 | without a "#", a pattern and a topic of different level counts never match (see also line 290) |
| Mqtt.RequestTopic | pkg/mqtt/mqtt.go:121-122 | the request topic is "pancy/request/" followed by the topic |
| Mqtt.ResponseTopic | pkg/mqtt/mqtt.go:122 | the response topic is "pancy/response/", the topic, "/" and the correlation ID |
| Mqtt.HandlerAnswersRequester | pkg/mqtt/mqtt.go:121-122 | the reply topic On derives from a request's topic is exactly the one Request waits on (see also lines 192 and 202-204) |
| Logger.LevelString | pkg/logger/logger.go:33-52 | the seven levels are named CRITICAL, ERROR, WARN, SUCCESS, INFO, DEBUG, SYSTEM, and any other value UNKNOWN |
| Logger.LevelStringInjective | pkg/logger/logger_test.go:27-48 | different levels have different names, none of them UNKNOWN |
| Logger.Color | pkg/logger/logger.go:55-74 | every level gets a non-empty ANSI escape sequence; only unnamed levels get the reset sequence |
| Logger.ColorInjective | pkg/logger/logger.go:55-74 | different named levels get different console colours |
| Logger.DiscordColor | pkg/logger/logger.go:77-94 | the embed colour by level, 0xFFFFFF for any other value, always a 24-bit value |
| Logger.FileLineHasNoColor | pkg/logger/logger.go:175-192 | the file line carries no escape character unless the caller's text does, while the console line does |
| Logger.WebhookTarget | pkg/logger/logger.go:209-220 | error levels go to the error URL and the rest to the logs URL, each only when that URL is non-empty |
| Logger.Log | pkg/logger/logger.go:169-206 | the file line goes to the combined log when it is open, and to error.log only for error levels |
| Logger.ErrorsStaySeparate | pkg/logger/logger.go:200-220 | errors never reach the logs webhook, and other levels never reach error.log or the error webhook |
| Config.GetEnv | pkg/config/config.go:115-120 | the variable's value when set and non-empty, otherwise the default |
| Config.Defaults | pkg/config/config.go:64-99 | with nothing set, every field takes its default, and the bot is not in production |
| Config.EmptyIsUnset | pkg/config/config.go:115-120 | an empty variable loads exactly like an unset one |
| Config.IsProdFromEnv | pkg/config/config.go:96 | production exactly when "enviroment" is set to "prod" (see also lines 123-125) |
| Config.SetValuesWin | pkg/config/config.go:64-99 | in every environment, each of the sixteen fields is the value of its variable whenever that variable is set and non-empty, whatever else is set (see also lines 115-120) |
| Config.ConfigHolder.constructor | pkg/config/config.go:50-54 | nothing is loaded at start |
| Config.ConfigHolder.Get | pkg/config/config.go:102-112 | the first call loads from the environment; every later call returns the same configuration |
| Commands.Command.constructor | pkg/discord/command.go:37-44 | NewCommand sets name, description, category and Run; no options, permissions, flags or autocomplete |
| Commands.Command.WithOptions | pkg/discord/command.go:47-50 | only the options change, and the same command is returned |
| Commands.Command.WithUserPermissions | pkg/discord/command.go:53-56 | only the user permissions change, and the same command is returned |
| Commands.Command.WithBotPermissions | pkg/discord/command.go:59-62 | only the bot permissions change, and the same command is returned |
| Commands.Command.AsDev | pkg/discord/command.go:65-68 | only the dev flag is set, and the same command is returned |
| Commands.Command.RequiresVoice | pkg/discord/command.go:71-74 | only the voice flag is set, and the same command is returned |
| Commands.Command.RequiresDatabase | pkg/discord/command.go:77-80 | only the database flag is set, and the same command is returned |
| Commands.Command.WithAutoComplete | pkg/discord/command.go:83-86 | only the autocomplete function changes, and the same command is returned |
| Commands.BuildTestCommand | pkg/discord/command_test.go:116-148 | a command built by chaining the setters publishes its name, description and options unchanged and keeps every flag that was set |
| Commands.FirstNamed | pkg/discord/command.go:169-181 | the first option of a list with that name, or none exactly when no option has the name |
| Commands.FirstNamedAppend | pkg/discord/command.go:170-179 | the first match in a concatenation lies in the first part if there is one there |
| Commands.FindOptionIsPreorder | pkg/discord/command.go:169-181 | findOption returns the first option with that name in depth-first pre-order |
| Commands.FindOptionFinds | pkg/discord/command.go:169-181 | an option is found exactly when one with that name exists at some depth, and what is found has that name |
| Commands.GetStringOption | pkg/discord/command.go:184-190 | "" when the option is absent, else its string |
| Commands.GetIntOption | pkg/discord/command.go:193-199 | 0 when the option is absent, else its integer |
| Commands.GetBoolOption | pkg/discord/command.go:202-208 | false when the option is absent, else its value |
| Commands.GetSnowflakeOption | pkg/discord/command.go:211-235 | the user, channel and role getters give nil exactly when the option is absent, else its ID |
| Commands.InvokingUser | pkg/discord/command.go:253-258 | the member's user inside a guild, the interaction's user otherwise |
| Commands.Guild | pkg/discord/command.go:238-244 | nil when the interaction has no guild ID, else the guild known under that ID, if any |
| Client.CommandCollection.constructor | pkg/discord/client.go:42-46 | the collection starts empty |
| Client.CommandCollection.Set | pkg/discord/client.go:49-68 | the command is stored under the name, replacing any earlier one; Get then returns it and Size counts distinct names |
| Client.CommandCollection.All | pkg/discord/client.go:71-79 | a copy equal to the collection, as large as Size |
| Client.ResolveName | pkg/discord/client.go:178-188 | a group with inner options gives "name.group.sub", a subcommand "name.sub", anything else, an empty group included, the bare name (see also lines 213-223) |
| Client.ExtendedClient.constructor | pkg/discord/client.go:101-130 | an empty registry, not ready |
| Client.ExtendedClient.OnReady | pkg/discord/client.go:147-150 | the client is ready |
| Client.ExtendedClient.Stop | pkg/discord/client.go:259-268 | the client is not ready |
| Client.ExtendedClient.HandleInteraction | pkg/discord/client.go:173-256 | an autocomplete on a registered name runs exactly its autocomplete function, if set, and never the checks or Run; a registered command is refused exactly when the blacklist denies it, premium-denied with the check's message exactly when it passes the blacklist and fails the premium check, and otherwise runs; an unregistered command is reported not found; the premium store changes only through the premium check |
| CommandHandler.SubcommandOptions | pkg/discord/command_handler.go:73-80 | one subcommand option per command, in order, carrying its name, description and options |
| CommandHandler.RegisterFiles | pkg/discord/command_handler.go:73-86 | after registering a group, each subcommand not shadowed by a later one of the same name is found under "prefix + name" |
| CommandHandler.RegisterKeys | pkg/discord/command_handler.go:73-86 | registering a group adds no name other than "prefix + name" of its subcommands |
| CommandHandler.CommandHandler.constructor | pkg/discord/command_handler.go:18-24 | the handler belongs to the client and has no commands to publish |
| CommandHandler.CommandHandler.RegisterCommand | pkg/discord/command_handler.go:39-51 | the command is filed under its name and its application command joins the dev list or the global list, never both |
| CommandHandler.CommandHandler.RegisterSubcommand | pkg/discord/command_handler.go:54-58 | the command is filed under "group.name" and nothing is published |
| CommandHandler.CommandHandler.RegisterSubcommandGroup | pkg/discord/command_handler.go:61-65 | the command is filed under "group.subgroup.name" and nothing is published |
| CommandHandler.CommandHandler.BuildCommandGroup | pkg/discord/command_handler.go:68-89 | the group's application command carries one subcommand per command, and each is filed under "name.sub" |
| CommandHandler.CommandHandler.BuildSubcommandGroup | pkg/discord/command_handler.go:92-114 | a subcommand-group option carrying one subcommand per command, each filed under "group.name.sub" |
| CommandHandler.CommandHandler.AddGlobalCommand | pkg/discord/command_handler.go:174-176 | only the global list grows, by that command |
| CommandHandler.CommandHandler.AddDevCommand | pkg/discord/command_handler.go:179-181 | only the development list grows, by that command |
| CommandHandler.CommandHandler.Publications | pkg/discord/command_handler.go:117-153 | every global command is published with no guild, in order, and the development commands follow for the development guild only when one is configured |
| CommandHandler.GroupNamesResolve | pkg/discord/command_handler.go:68-89 | the name an interaction with a subcommand of a built group resolves to finds that subcommand (with pkg/discord/client.go:178-188) |
| CommandHandler.SubgroupNamesResolve | pkg/discord/command_handler.go:92-114 | the name an interaction with a subcommand of a built subcommand group resolves to finds that subcommand (with pkg/discord/client.go:178-188) |
| PremiumCheck.Check | pkg/discord/premium/types.go:20-61 | no requirement always allows; allowed exactly when each required lookup succeeds and finds active premium; a failed user lookup, a user without premium, a missing guild, a failed guild lookup and a guild without premium each give their own message |
| BlacklistMiddleware.ReasonField | pkg/discord/blacklist_middleware.go:27-34 | the "Razón" field appears exactly when the entry has a non-empty reason, and shows it |
| BlacklistMiddleware.Check | pkg/discord/blacklist_middleware.go:13-91 | the command goes on exactly when the user is not blacklisted and, inside a guild, the guild is not; the user check comes first and a blacklisted guild is left |
| BlacklistMiddleware.NoGuildNoGuildCheck | pkg/discord/blacklist_middleware.go:49-90 | outside a guild only the user's entry decides, and no guild is left |
| RateLimiter.Step | pkg/web/server.go:168-200 | the request is recorded for its IP only, and goes on exactly when the IP's count in its window is at most 100 |
| RateLimiter.Run | pkg/web/server.go:168-200 | one verdict per request, in order |
| RateLimiter.WindowAdmitsFirstHundred | pkg/web/server.go:159-200 | within one 60-second window from a fresh start, exactly the first 100 requests go on, and the window keeps its start |
| RateLimiter.WindowReopens | pkg/web/server.go:172-181 | the first request after the window has ended goes on and starts a new window with a count of one |
| RateLimiter.OtherIpsIndependent | pkg/web/server.go:168-200 | requests from another IP never change the verdict or the count of this one |
| RateLimiter.Limiter.constructor | pkg/web/server.go:156-161 | the table starts empty |
| RateLimiter.Limiter.Handle | pkg/web/server.go:168-200 | a new or expired IP starts a fresh window and goes on; otherwise the count grows by one and the request goes on exactly when it stays at most 100 |
| Music.Quot | internal/commands/music.go:330-331 | Go's integer division, which agrees with floored division on non-negative operands |
| Music.Rem | internal/commands/music.go:332 | Go's remainder: dividend = divisor × quotient + remainder, and the usual remainder on non-negative operands |
| Music.ColonIndex | internal/commands/music.go:333 | the position found holds the first ':' of the text |
| Music.ColonAfterDigits | internal/commands/music.go:333 | in "minutes:seconds" the first ':' follows the digits of the minutes |
| Music.FormatDurationReadsBack | internal/commands/music.go:328-333 | for any non-negative length, the "m:ss" text reads back as the whole number of seconds |
| Music.FormatDurationSameSecond | internal/commands/music.go:328-333 | two non-negative lengths give the same text exactly when they fall in the same second |
| Music.LinesAppend | internal/commands/music.go:251-258 | numbering the lines of two runs of tracks continues the count across them |
| Music.QueueListing | internal/commands/music.go:235-261 | the empty-queue message exactly when nothing plays and nothing waits |
| Music.QueueListingCountsRest | internal/commands/music.go:252-254 | with more than ten tracks waiting the listing ends with how many more there are |
| Music.QueueListingNamesTrack | internal/commands/music.go:256-257 | each of the first ten waiting tracks appears under its position counted from 1 |
| Music.QueueListingIgnoresTail | internal/commands/music.go:249-259 | queues of the same length that agree on their first ten tracks are listed alike |
| Music.BuildQueueListing | internal/commands/music.go:239-261 | the text the string builder assembles is the listing |
| Music.WriteQueue | internal/commands/music.go:249-259 | the loop writes the first ten tracks numbered from 1 and then the count of the rest |
| Music.LoadErrorReportedAsNoResults | internal/commands/music.go:132-138 | a search that failed with an exception is answered as having no results, never with its error |
| Music.ChooseTrack | internal/commands/music.go:128-140 | a failed search reports its error; the first track is played exactly when the search found tracks |
| Music.ChooseTrackOnlyFixesLoadError | internal/commands/music.go:132-138 | the corrected order answers every other search as the code does |
| Music.PlayHandler | internal/commands/music.go:106-170 | no query, no voice channel and no music system each stop before searching; after a search the reply follows the corrected ChooseTrack, so a failed load is answered with its error; a failed voice join is reported with its cause; a played track is the first one found, joined to the player's state |
| Music.PlaybackErrorText | pkg/lavalink/lavalink.go:502 | the text of a playback error: a failed voice join is "error joining voice channel: " followed by its cause, and no node is "no available nodes" (see also line 564) |
| Music.PauseHandler | internal/commands/music.go:173-192 | the player's pause flag flips; the guild's player is the registered one or a fresh one and no other player changes; the reply is a message exactly when some node accepted the update, and then says resumed when the player was paused and paused otherwise |
| Music.PauseTwiceRestores | internal/commands/music.go:173-192 | two /pause commands in a row give back the player's state; when both are answered with a message the two texts differ, and the first says paused exactly when the player was not paused |
| Music.QueueHandler | internal/commands/music.go:225-262 | with a music system, the reply is the listing of the guild player's current track and queue |
| Text.LowerAscii | internal/commands/dev/blacklist.go:443 | an ASCII capital becomes its small letter and every other character is kept |
| Text.ToLowerAscii | internal/commands/dev/blacklist.go:443 | the text keeps its length and each character is lowered |
| Text.UpperAscii | internal/commands/dev/codegen.go:200 | an ASCII small letter becomes its capital and every other character is kept |
| Text.ToUpperAscii | internal/commands/dev/codegen.go:200 | the text keeps its length and each character is raised |
| Text.TruncateChoiceName | internal/commands/dev/blacklist.go:445-447 | a choice name is at most 100 bytes: a shorter one is kept, a longer one becomes its first 97 bytes and "..." |
| Text.TrimPrefix | pkg/mqtt/mqtt.go:203 | `strings.TrimPrefix`: with the prefix present, prefix and result make up the text; otherwise the text is unchanged |
| Text.DigitChar | internal/commands/music.go:332 | a decimal digit is written as a character '0' to '9' |
| Text.NatToString | internal/commands/music.go:332 | `%d` of a natural number: at least one digit, only digits, no leading zero |
| Text.ParseNatToString | internal/commands/music.go:332 | the decimal text of a number reads back as that number |
| Text.NatToStringInjective | internal/commands/music.go:332 | different numbers have different decimal texts |
| Text.Pad2 | internal/commands/music.go:332 | `%02d` of a natural number: only digits, exactly two below 100, reading back as the number |
| Replies.ErrorEmbed | internal/commands/dev/codegen.go:228-234 | a red embed without fields whose title is "❌ " followed by the given title and whose description is the given text |
| Replies.CallerId | internal/commands/dev/codedel.go:37-42 | the member's user inside a guild, else the interaction's user, else "", which never passes the developer check |
| Replies.Filter | internal/commands/dev/codelist.go:98-114 | keeping the matching elements in order: no more than there were, every match and only matches |
| Replies.FilterPrefix | internal/commands/dev/codelist.go:98-114 | what a loop has kept after part of the input is a prefix of what it keeps in the end |
| Replies.FilterKeepsAll | internal/commands/dev/codelist.go:98-114 | when every element matches, all are kept |
| Replies.FirstMatches | internal/commands/dev/blacklist.go:436-454 | at most the limit of matches, taken from the front of all matches, and all of them when there are few enough |
| Replies.FirstMatchesOfPrefix | internal/commands/dev/blacklist.go:436-454 | a loop that stops once the limit is reached has taken the first matches |
| Replies.FilterStep | internal/commands/dev/codelist.go:98-114 | one more step of a filtering loop adds the element exactly when it matches |
| Paging.PageCount | internal/commands/dev/blacklist.go:355-362 | the fewest pages of ten that hold every element |
| Paging.Page | internal/commands/dev/blacklist.go:357-362 | every page holds between one and ten elements |
| Paging.PageStep | internal/commands/dev/blacklist.go:357-362 | a page that exists starts inside the input, ends where the loop clamps it, and is the last one exactly when it reaches the end |
| Paging.ConcatAppend | internal/commands/dev/blacklist.go:357-362 | joining pages distributes over appending them |
| Paging.ConcatSplit | internal/commands/dev/blacklist.go:357-362 | joining pages is the pages before one, that page, and the pages after it |
| Paging.Map | internal/commands/dev/codelist.go:136-168 | one output per input, in order, each the function's value on it |
| Paging.MapSnoc | internal/commands/dev/codelist.go:136-168 | mapping a loop's input one element further adds that element's image |
| Paging.ConcatMap | internal/commands/dev/codelist.go:136-168 | mapping each page and joining is mapping the joined pages |
| Paging.PagesPrefix | internal/commands/dev/blacklist.go:357-362 | the first j pages hold exactly the first 10·j elements |
| Paging.PagesPartition | internal/commands/dev/blacklist.go:355-362 | the pages, joined, are the input, and each holds one to ten elements |
| DevBlacklist.TypeName | internal/commands/dev/blacklist.go:474-479 | "usuario" for the user type, "servidor" for any other |
| DevBlacklist.TypeEmoji | internal/commands/dev/blacklist.go:481-486 | the person emoji exactly for the user type, the building otherwise |
| DevBlacklist.FilterName | internal/commands/dev/blacklist.go:488-497 | "Usuarios", "Servidores" or "Todos" for the user filter, the guild filter and anything else |
| DevBlacklist.EntryParts | internal/commands/dev/blacklist.go:499-517 | the type line comes first; the reason, the author and the date each appear exactly when set |
| DevBlacklist.Add | internal/commands/dev/blacklist.go:104-217 | only the developer passes; only "user" and "guild" reach the database; a duplicate and a failed add each get their own error reply; a newly blacklisted guild the bot is in is left, its owner told when reachable |
| DevBlacklist.Remove | internal/commands/dev/blacklist.go:219-294 | removal is attempted exactly for the developer, a non-empty ID and an existing entry; each refusal and the failure has its own message; the reply has a reason field exactly when the entry had one |
| DevBlacklist.QueryFor | internal/commands/dev/blacklist.go:316-326 | "all" lists everything, "user" the users, any other filter the guilds |
| DevBlacklist.EntryFields | internal/commands/dev/blacklist.go:372-379 | one field per entry, in order |
| DevBlacklist.PageFields | internal/commands/dev/blacklist.go:372-379 | the field loop of a page produces the entries' fields |
| DevBlacklist.BuildPage | internal/commands/dev/blacklist.go:357-383 | one pass of the paging loop builds the embed of page k: its range, the filter description and its entries |
| DevBlacklist.ListEmbeds | internal/commands/dev/blacklist.go:335-383 | an empty listing is one yellow embed; otherwise one embed per page of ten, each holding its page |
| DevBlacklist.ListingCoversEntries | internal/commands/dev/blacklist.go:357-383 | the embeds' fields, laid end to end, are the fields of every entry in listing order |
| DevBlacklist.List | internal/commands/dev/blacklist.go:296-407 | only the developer gets a query, chosen from the filter (default "all"); a failed query, an empty listing and a listing each give their embeds |
| DevBlacklist.EntryChoices | internal/commands/dev/blacklist.go:444-452 | one choice per entry, in order |
| DevBlacklist.AutoCompleteChoices | internal/commands/dev/blacklist.go:435-465 | one to 25 choices with names of at most 100 bytes; the placeholder exactly when no entry matches the typed text; otherwise each choice is a matching entry's ID |
| DevBlacklist.FirstChoices | internal/commands/dev/blacklist.go:436-454 | the loop keeps the first 25 matching entries in order |
| DevBlacklist.AutoComplete | internal/commands/dev/blacklist.go:410-470 | no choices when the listing fails, else the choices for the typed text |
| CodeDel.LowerRunes | internal/commands/dev/codedel.go:250-258 | the rune loop lowers exactly the ASCII capitals |
| CodeDel.ContainsIgnoreCase | internal/commands/dev/codedel.go:244-280 | true exactly when the lowered needle occurs in the lowered text; an empty needle always matches and a longer one never does |
| CodeDel.LowerIdempotent | internal/commands/dev/codedel.go:250-266 | lowering twice is lowering once |
| CodeDel.LowerOfUpper | internal/commands/dev/codedel.go:250-266 | lowering an upper-cased text is lowering the text |
| CodeDel.MatchIgnoresCase | internal/commands/dev/codedel.go:244-280 | the match does not depend on the case of either side, and every text contains itself |
| CodeDel.CodeTypeName | internal/commands/dev/codedel.go:228-233 | "👤 Usuario" exactly for the user type, "🏰 Servidor" for anything else |
| CodeDel.CodeStatus | internal/commands/dev/codedel.go:236-241 | "✅ Canjeado" exactly for a claimed code, "🎫 Disponible" otherwise |
| CodeDel.DeletedFields | internal/commands/dev/codedel.go:80-128 | type, status and duration always; who claimed it exactly when the code is claimed by someone; and when, exactly when that time is also set |
| CodeDel.Delete | internal/commands/dev/codedel.go:32-144 | the code is deleted exactly for the developer, a non-empty code and a lookup that succeeds and finds it; a failed lookup is reported as a missing code; each refusal and the failed deletion has its own message, and a deletion is confirmed with the code's details |
| CodeDel.CodeChoices | internal/commands/dev/codedel.go:182-204 | one choice per code, in order |
| CodeDel.AutoCompleteChoices | internal/commands/dev/codedel.go:172-215 | one to 25 choices with names of at most 100 bytes; the placeholder exactly when no code matches the typed text; otherwise each choice is a matching code |
| CodeDel.FirstChoices | internal/commands/dev/codedel.go:174-205 | the loop keeps the first 25 matching codes in order |
| CodeDel.AutoComplete | internal/commands/dev/codedel.go:147-225 | no choices when the listing fails, else the choices for the typed text |
| CodeList.FilterCodes | internal/commands/dev/codelist.go:98-114 | the loop keeps, in order, the codes that pass the status and type filters |
| CodeList.KeptCodes | internal/commands/dev/codelist.go:98-114 | a code is kept exactly when it is listed, is unclaimed under "available", claimed under "claimed", and of the chosen type when one is chosen |
| CodeList.NoFilterKeepsAll | internal/commands/dev/codelist.go:98-114 | without a status or type filter every code is kept, in order |
| CodeList.FilterIdempotent | internal/commands/dev/codelist.go:98-114 | filtering the kept codes again keeps them all |
| CodeList.CodeInfoLines | internal/commands/dev/codelist.go:204-245 | type and status first, the duration always; who claimed and when, the creation time and the creator each exactly when set |
| CodeList.FilterDescription | internal/commands/dev/codelist.go:248-273 | the status label, followed by the type when one is chosen; never "Sin filtros" |
| CodeList.PageFields | internal/commands/dev/codelist.go:145-165 | the filters field, then one field per code of the page |
| CodeList.BuildPage | internal/commands/dev/codelist.go:139-167 | one pass of the paging loop builds the embed of page k: its range, the filters field and its codes |
| CodeList.ListEmbeds | internal/commands/dev/codelist.go:116-168 | one yellow embed when nothing is kept, else one embed per page of ten |
| CodeList.PagesAreSmall | internal/commands/dev/codelist.go:139-165 | every embed starts with the filters field and holds one to ten codes after it |
| CodeList.ListingCoversCodes | internal/commands/dev/codelist.go:139-168 | the embeds' code fields, laid end to end, are the fields of every kept code in order |
| CodeList.Send | internal/commands/dev/codelist.go:171-195 | the embeds are sent in order until the first one that fails, which stops the sending |
| CodeList.List | internal/commands/dev/codelist.go:62-201 | only the developer gets a listing; a failed fetch has its own message; otherwise the embeds of the kept codes are sent in order until one fails |
| CodeGen.HexDigit | internal/commands/dev/codegen.go:200 | a nibble is written as one lower-case hexadecimal digit |
| CodeGen.HexEncode | internal/commands/dev/codegen.go:200 | `hex.EncodeToString`: two lower-case hexadecimal digits per byte |
| CodeGen.UpperHexValue | internal/commands/dev/codegen.go:200 | an upper-case hexadecimal digit stands for a value below 16 |
| CodeGen.HexEncodePrefix | internal/commands/dev/codegen.go:200 | the first 2·n digits of the encoding are the encoding of the first n bytes |
| CodeGen.DigitReadsBack | internal/commands/dev/codegen.go:200 | an upper-cased digit reads back as its nibble |
| CodeGen.HexRoundTrip | internal/commands/dev/codegen.go:200 | upper-cased hexadecimal text decodes back to the bytes |
| CodeGen.GenerateRandomCode | internal/commands/dev/codegen.go:194-201 | every code starts "PANC-"; from random bytes it is 17 characters with 12 upper-case hexadecimal digits; when the random source fails it is "PANC-" and the time in nanoseconds |
| CodeGen.RandomCodeReadsBack | internal/commands/dev/codegen.go:194-201 | the 12 digits of a random code read back as the first six random bytes, which is all of the randomness a code keeps |
| CodeGen.RandomCodesDiffer | internal/commands/dev/codegen.go:194-201 | draws that differ in their first six bytes give different codes |
| CodeGen.IsPermanent | internal/commands/dev/codegen.go:82-85 | permanent exactly when the duration is 0 |
| CodeGen.CodeTypeFor | internal/commands/dev/codegen.go:94-99 | the user type exactly for "user", the guild type for anything else |
| CodeGen.TipeName | internal/commands/dev/codegen.go:204-209 | the name shown agrees with the type stored |
| CodeGen.Attempts | internal/commands/dev/codegen.go:91 | as many attempts as requested, none for a count of zero or less |
| CodeGen.Run | internal/commands/dev/codegen.go:91-115 | every attempt ends up generated or failed, each attempt with its own database calls |
| CodeGen.Attempt | internal/commands/dev/codegen.go:101-114 | one attempt stores what CreatePremiumCode stores and lists the code as generated or as failed, nothing else |
| CodeGen.AttemptStep | internal/commands/dev/codegen.go:101-114 | an attempt changes at most the drawn code, which is then as the batch creates it; a generated code whose lookup succeeded was new |
| CodeGen.RunSnoc | internal/commands/dev/codegen.go:91-115 | running all attempts is running all but the last and then the last |
| CodeGen.RunStoresCreated | internal/commands/dev/codegen.go:91-115 | only the codes store changes; it gains only drawn codes, and every entry is either as it was or as the batch creates it, every new one included |
| CodeGen.RunPartitions | internal/commands/dev/codegen.go:109-114 | the generated and the failed codes together are exactly the codes drawn |
| CodeGen.RunStoresGenerated | internal/commands/dev/codegen.go:91-115 | every generated code is stored unclaimed with the requested type, duration, permanence and creator; a code already present stays as it was unless an attempt drew it and its lookup failed; a generated code whose lookups succeeded was new |
| CodeGen.RunWithoutManager | internal/commands/dev/codegen.go:101-111 | without a code manager every attempt fails and the store is untouched |
| CodeGen.DrawnCodes | internal/commands/dev/codegen.go:91-92 | one code per attempt, in order, each from its own draw |
| CodeGen.TryCode | internal/commands/dev/codegen.go:94-114 | one pass of the loop body: the type is chosen and the code attempted, as Attempt says |
| CodeGen.Generate | internal/commands/dev/codegen.go:88-115 | the loop's batch is the attempts for the drawn codes, one per requested code, each with its own database calls |
| CodeGen.ListCodes | internal/commands/dev/codegen.go:149-152 | the loop writes each code on its own line, in order |
| CodeGen.ListingShowsEveryCode | internal/commands/dev/codegen.go:149-152 | every code appears in the listing |
| CodeGen.BatchEmbed | internal/commands/dev/codegen.go:117-171 | type and duration first; the generated field and then the failed field each exactly when non-empty; orange exactly when some code failed, green otherwise |
| CodeGen.Handle | internal/commands/dev/codegen.go:61-191 | only the developer changes the store; the developer's batch is stored and reported |
| Warn.RoleMap | internal/commands/mod/warn.go:213-216 | the map from role ID to position knows exactly the guild's role IDs |
| Warn.RoleMapLastWins | internal/commands/mod/warn.go:213-216 | a role ID listed more than once keeps the position of its last listing |
| Warn.BuildRoleMap | internal/commands/mod/warn.go:213-216 | the loop builds that map |
| Warn.Highest | internal/commands/mod/warn.go:210-226 | never negative, at least the position of every member role the guild knows, and either 0 or the position of one of them |
| Warn.UnknownRolesIgnored | internal/commands/mod/warn.go:218-222 | a member role the guild does not know changes nothing |
| Warn.HighestRolePosition | internal/commands/mod/warn.go:210-226 | the two loops compute that highest position |
| Warn.HierarchyRule | internal/commands/mod/warn.go:91-95 | the guild owner may always warn; anyone else only a member whose highest role is strictly lower |
| Warn.StripDashes | internal/commands/mod/warn.go:116 | removing the dashes leaves no dash and does not lengthen the text |
| Warn.StripKeepsPrefix | internal/commands/mod/warn.go:116 | a prefix without dashes survives the removal |
| Warn.ShortId | internal/commands/mod/warn.go:115-116 | the short ID of a UUID has six characters |
| Warn.ShortIdIsUuidPrefix | internal/commands/mod/warn.go:115-116 | the short ID is the UUID's first six characters, all lower-case hexadecimal digits |
| Warn.Record | internal/commands/mod/warn.go:137-147 | the user's warnings in the guild gain the new one at the end, in a new document when there was none; no other document changes |
| Warn.RecordCounts | internal/commands/mod/warn.go:137-147 | recording a warning adds one to that user's count in that guild and leaves every other count alone |
| Warn.WarnUser | internal/commands/mod/warn.go:43-207 | the user, self, bot, guild, owner, member and hierarchy checks refuse in that order, each exactly when the checks before it pass and it fails, with its message; past them the reply and the read can each fail, changing nothing; a warning records the reason (or the default), the moderator, the UUID's short ID and the time, also when its write fails and is reported |
| RemoveWarn.LastIdAt | internal/commands/mod/removewarn.go:94-105 | the position the loop's last match lands on is a position of the list, or -1 when nothing matched |
| RemoveWarn.LastIdAtStep | internal/commands/mod/removewarn.go:94-105 | one more iteration moves the match to the new warning exactly when it carries the ID |
| RemoveWarn.LastIdAtIsLast | internal/commands/mod/removewarn.go:94-105 | that position carries the ID, none after it does, and it exists exactly when some warning carries the ID |
| RemoveWarn.SplitWarnings | internal/commands/mod/removewarn.go:94-105 | the loop keeps every warning with another ID in order, finds exactly when some warning has the ID, and reports the last such warning as the removed one |
| RemoveWarn.RemovalCounts | internal/commands/mod/removewarn.go:94-105 | exactly the warnings with the ID are dropped, and the kept and dropped counts add up to the old count |
| RemoveWarn.RemoveUndoesWarn | internal/commands/mod/removewarn.go:94-105 | removing a warning just appended to a user's list, by its ID, gives back the earlier warnings when none of them shared the ID |
| RemoveWarn.WarnAsWritten | internal/commands/mod/warn.go:126-147 | as written, `/warn` appends the warning in the collection "Warns" |
| RemoveWarn.WarnShared | internal/commands/mod/warn.go:137-147 | a `/warn` that records into the collection `/removewarn` reads appends the warning there (with pkg/database/datamanager.go:55) |
| RemoveWarn.RemoveAfterWarnAsWritten | internal/commands/mod/removewarn.go:78-92 | as written, removing a warning just given answers that the user has no warnings, because `/removewarn` reads the collection "warns" (with internal/commands/mod/warn.go:126) |
| RemoveWarn.RemoveAfterWarn | internal/commands/mod/removewarn.go:78-172 | with one shared collection, removing a warning just given by its ID removes it and gives back the user's earlier warnings |
| RemoveWarn.RemoveWarning | internal/commands/mod/removewarn.go:42-172 | a missing user or ID is refused first; then the reply, the read, an empty list and a missing ID each end the command with nothing changed; a removal rewrites only that document, without the warnings with the ID, also when its write fails and is reported |
| RemoveWarn.WarnChoice | internal/commands/mod/removewarn.go:196-205 | the choice is valued by the warning's ID and named in at most 100 bytes |
| RemoveWarn.WarnChoices | internal/commands/mod/removewarn.go:193-206 | the first 25 warnings in stored order, one choice each |
| RemoveWarn.FirstChoices | internal/commands/mod/removewarn.go:193-206 | the loop, which stops at 25, builds those choices |
| RemoveWarn.AutoComplete | internal/commands/mod/removewarn.go:175-210 | no answer without a user, after a failed read or when there are no warnings; otherwise one to 25 choices, each a warning's ID |

## Where the description and the code differ

The model follows the code in each case.

- The description of the bot says a node's session ID is invalidated on
  disconnect. `handleDisconnect` (pkg/lavalink/lavalink.go) only clears the
  connected flag. REST calls still fail while the node is disconnected,
  because they also require the connection.
- The description has a voice-credential correlator that buffers the
  voice-state and voice-server halves. The code buffers nothing: the
  voice-state handler only logs, and the voice-server handler reads the
  session's state directly. No correlator is modelled.
- Two blacklist implementations exist side by side: `blacklist_cache.go`
  (on `models.Blacklist`) and `blacklist_service.go` (on
  `models.BlacklistEntry`). Each is modelled separately, as written. The
  middleware calls the package-level `database.IsUserBlacklisted` with two
  results (pkg/discord/blacklist_middleware.go:18). Neither file declares
  that function: `blacklist_service.go:201` returns three results and
  ignores the type, and `blacklist_cache.go:170` is a method that checks
  the type. BlacklistMiddleware.Check uses the type-aware cache lookups of
  `blacklist_cache.go`.

## Left out

- Network and process I/O: Lavalink websockets, the read loop and the
  reconnect goroutines, and the HTTP requests for searching tracks and for
  player updates. Also the MongoDB driver with its contexts and timeouts,
  the paho MQTT client with `Request`'s select on a channel and a timeout,
  the Gin routing, and the logger's console, file and webhook writes.
  Their outcomes are parameters.
- Concurrency: goroutines, tickers, mutexes and `sync.Once`. Each locked
  block is one atomic step. The refresh and reconnect tickers are flags
  that record whether they were started or stopped.
- The progress ticker of the player (`startProgressUpdates` publishing over
  MQTT). Only its bookkeeping of started and stopped guilds is modelled.
- Floating point: the player's position is an integer number of
  milliseconds, and the now-playing percentage is not modelled.
- Discord output: embed timestamps, footers, thumbnails, avatars and
  direct messages. This includes the warned user's DM and the 5-second
  deletion of the DM-failure notice in `/warn`. The "DM the guild owner"
  step of the blacklist command is a flag saying whether the owner was
  reached.
- Discord state lookups are parameters. These are guild and member
  lookups, voice states, and the focused autocomplete option.
- The commands `/skip`, `/stop`, `/volume` and `/nowplaying` are wiring
  over the Lavalink operations, which are modelled. Also left out are
  `/warnings`, `/ban`, `/kick`, `/mute`, the utility commands, `/eval`, the
  event handlers, the `register.go` files and the `cmd/` programs.
- `UnregisterCommands` deletes commands through the Discord API, which is
  not part of this model. `RegisterCommands` appears only as the list of
  publications it makes.
- The `time.Sleep` between the follow-ups of `/codelist` is left out.
- `crypto/rand` and `uuid.New` are inputs: a draw of twelve bytes or a
  failed read, and a well-formed UUID.
- Time is an integer number of milliseconds, with 0 standing for Go's zero
  `time.Time`. `/codegen` reads the clock once for the whole batch.
- Text is a sequence of characters. A character stands for one byte where
  the code measures bytes: the 100-byte limit on autocomplete names. There
  the emoji and accented letters are spelled as their UTF-8 bytes.
  Elsewhere a message keeps its characters, and invalid UTF-8 is not
  considered.
- DevBlacklist.AutoCompleteChoices: `strings.ToLower` is modelled as ASCII
  lowering. It differs only on non-ASCII capitals, which IDs made of digits
  do not contain.
- PremiumCheck.Check: the command's premium requirement is a parameter. The
  `PremiumType` field that `handleInteraction` reads is not declared in
  `command.go`.
- Music.ChooseTrack: the search result's track list is computed by
  `GetTracks`. `result.Tracks`, which `playHandler` reads, is not a declared
  field of `SearchResult`.
- Music.PlayHandler: the Lavalink search itself is a parameter (its
  outcome, or a search error).
- Music.PlayHandler: it judges the search result with the corrected
  `ChooseTrack`, so a load that failed with an exception is answered with
  that error. The code as written answers it as having no results
  (internal/commands/music.go:132-134); `ChooseTrackOnlyFixesLoadError`
  shows every other search is answered as the code does.
- An offline `Set` returns no document and no error
  (pkg/database/datamanager.go:198-211); the premium, warn and removewarn
  models count it as a successful write.
- The write queue is assumed to be replayed eventually. A queued write
  that is lost (the process stops first) is not modelled.
- The premium, warn and removewarn stores do not model cache eviction: a
  cached document that is changed in place and then evicted before its
  queued write lands is not considered.

## Findings

| source | as written | input that shows it | evidently intended | confidence | as-written member | corrected member |
|---|---|---|---|---|---|---|
| pkg/database/datamanager.go:198-211,261-279 | an offline `Set` or `Delete` queues its write under `dm.collection.Name()`, and the manager's collection handle is nil when the database was not connected at creation | a manager for "warns" created before the first `Connect`, then a `Set` while offline: the nil handle is dereferenced, so no write is queued | queue the write under the collection name the manager was created with | not executed | DataCache.OfflineWriteBeforeFirstConnect (with DataCache.QueuedNameAsWritten) | DataCache.DataManager.Set, DataCache.DataManager.Delete |
| pkg/database/blacklist_service.go:151-157 | `AddToBlacklist` passes `Set`'s result to `addToCache`, but an offline `Set` returns a nil entry with a nil error | a new ID added while the database is offline: `addToCache(nil)` dereferences nil | cache the entry that was written, or queued | not executed | BlacklistService.OfflineAddPanics (with BlacklistService.AddToCacheAsWritten) | BlacklistService.BlacklistCache.AddToBlacklist |
| internal/commands/mod/warn.go:126 | `/warn` writes to a data manager on the collection "Warns", while `/removewarn` and its autocomplete read the shared manager on "warns" (pkg/database/datamanager.go:55, internal/commands/mod/removewarn.go:78); collection names are case-sensitive | a user warned once on a fresh database, then `/removewarn` with that warning's ID: the reply is that the user has no warnings | both commands use one collection | not executed | RemoveWarn.RemoveAfterWarnAsWritten (with RemoveWarn.WarnAsWritten) | RemoveWarn.RemoveAfterWarn (with RemoveWarn.WarnShared, RemoveWarn.RemoveUndoesWarn) |
| internal/commands/music.go:132-138 | the "empty or no tracks" check comes before the "error" check, and `GetTracks` gives no tracks for the load type "error" | a search answered with load type "error" and an exception: the reply is "no results" and the error branch is never reached | report the load error with its message | not executed | Music.LoadErrorReportedAsNoResults (with Music.ChooseTrackAsWritten) | Music.ChooseTrack, Music.ChooseTrackOnlyFixesLoadError, Music.PlayHandler |
