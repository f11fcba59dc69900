/**
 * Premium records for users and guilds, and one-shot premium codes that grant
 * them. The three collections (user records, guild records, codes) form a
 * `Store`; every service is a function from the store (and the current time,
 * in milliseconds) to the new store and its answer.
 *
 * How each database call ends is a parameter: `readOk` says whether a lookup
 * (`dm.Get`) succeeded, `writeOk` whether a write (`dm.Set`, `dm.Delete`)
 * did. The store holds the documents as later reads will find them once the
 * data manager's write queue has been replayed: a write that fails is queued
 * for replay, so it still lands in the store, and only the answer tells the
 * caller that it failed.
 *
 * The user and guild services of the bot are line-for-line twins; here they
 * are one set of functions over a `Scope`.
 */
module Premium {
  import opened Wrappers

  const NanosPerMilli := 1_000_000
  const NanosPerHour := 60 * 60 * 1_000_000_000
  const NanosPerDay := 24 * NanosPerHour

  // -----------------------------------------------------------------------
  // 64-bit durations

  const TwoTo63 := 0x8000_0000_0000_0000

  /** A Go `int64` result: `x` wrapped into [-2^63, 2^63). */
  function Int64(x: int): (r: int)
    ensures -TwoTo63 <= r < TwoTo63
    ensures -TwoTo63 <= x < TwoTo63 ==> r == x
    ensures TwoTo63 <= x < 3 * TwoTo63 ==> r == x - 2 * TwoTo63
  {
    (x + TwoTo63) % (2 * TwoTo63) - TwoTo63
  }

  /** The most days whose length in nanoseconds fits in an `int64`. */
  const MaxDurationDays := 106751

  /**
   * `time.Duration(days) * 24 * time.Hour`: both products are `int64`
   * products, so a code of more than `MaxDurationDays` days wraps, into a
   * negative duration up to twice that many days.
   */
  function CodeDuration(days: int): (d: int)
    ensures -TwoTo63 <= d < TwoTo63
    ensures -MaxDurationDays <= days <= MaxDurationDays ==> d == days * NanosPerDay
    ensures MaxDurationDays < days <= 2 * MaxDurationDays + 1 ==> d < 0
  {
    Int64(Int64(days * 24) * NanosPerHour)
  }

  datatype Scope = UserScope | GuildScope

  /** `models.UserPremium` / `models.GuildPremium`: whose premium, and until when. */
  datatype PremiumRecord = PremiumRecord(id: string, permanent: bool, expiresAt: int)

  const UserCodeType := "user"
  const GuildCodeType := "guild"

  /** `models.PremiumCode`; times are in milliseconds. */
  datatype PremiumCode = PremiumCode(
    code: string, codeType: string, durationDays: int, permanent: bool, isClaimed: bool,
    createdAt: int, claimedBy: string, claimedAt: int, createdBy: string)

  /**
   * The database as the services see it: whether each data manager was
   * initialised, and the documents of each collection by their key.
   */
  datatype Store = Store(
    userManager: bool, guildManager: bool, codeManager: bool,
    users: map<string, PremiumRecord>, guilds: map<string, PremiumRecord>,
    codes: map<string, PremiumCode>)
  {
    predicate HasManager(scope: Scope) {
      if scope.UserScope? then userManager else guildManager
    }

    function Records(scope: Scope): map<string, PremiumRecord> {
      if scope.UserScope? then users else guilds
    }

    function WithRecords(scope: Scope, m: map<string, PremiumRecord>): Store {
      if scope.UserScope? then this.(users := m) else this.(guilds := m)
    }
  }

  /** The services' errors; `DatabaseError` is whatever a failed lookup or write returned. */
  datatype PremiumError =
    | ManagerNotInitialized
    | DurationRequired
    | CodeNotFound
    | CodeAlreadyClaimed
    | CodeExists
    | NotAGuildCode
    | DatabaseError

  datatype Result<T> = Ok(value: T) | Err(error: PremiumError)

  /** A service's answer together with the store it leaves behind. */
  datatype Reply<T> = Reply(store: Store, result: Result<T>)

  /** `isRecordExpired`: a permanent record never expires; another expires once `now` reaches `expiresAt`. */
  function IsRecordExpired(permanent: bool, expiresAt: int, now: int): (expired: bool)
    ensures permanent ==> !expired
    ensures !permanent ==> (expired <==> expiresAt <= now)
  {
    if permanent then false else expiresAt <= now
  }

  predicate Active(rec: PremiumRecord, now: int) {
    !IsRecordExpired(rec.permanent, rec.expiresAt, now)
  }

  /**
   * `GetUserPremium` / `GetGuildPremium`: a failed lookup is returned as it
   * is; otherwise the record, unless it has expired, in which case it is
   * deleted (whatever the deletion returns) and reported absent.
   */
  function GetPremium(st: Store, scope: Scope, id: string, now: int, readOk: bool): (r: Reply<Option<PremiumRecord>>)
    ensures !st.HasManager(scope) ==> r == Reply(st, Err(ManagerNotInitialized))
    ensures st.HasManager(scope) && !readOk ==> r == Reply(st, Err(DatabaseError))
    ensures st.HasManager(scope) && readOk ==> r.result.Ok?
    ensures r.result.Ok? && r.result.value.Some? ==>
      id in st.Records(scope) && r.result.value.value == st.Records(scope)[id] && Active(r.result.value.value, now)
    ensures r.result.Ok? && r.result.value.None? ==>
      id !in st.Records(scope) || !Active(st.Records(scope)[id], now)
    ensures st.HasManager(scope) && readOk && id in st.Records(scope) && !Active(st.Records(scope)[id], now) ==>
      r.store == st.WithRecords(scope, st.Records(scope) - {id})
    ensures !(st.HasManager(scope) && readOk && id in st.Records(scope) && !Active(st.Records(scope)[id], now)) ==>
      r.store == st
  {
    if !st.HasManager(scope) then Reply(st, Err(ManagerNotInitialized))
    else if !readOk then Reply(st, Err(DatabaseError))
    else if id in st.Records(scope) && IsRecordExpired(st.Records(scope)[id].permanent, st.Records(scope)[id].expiresAt, now) then
      Reply(st.WithRecords(scope, st.Records(scope) - {id}), Ok(None))
    else if id in st.Records(scope) then Reply(st, Ok(Some(st.Records(scope)[id])))
    else Reply(st, Ok(None))
  }

  /** `IsUserPremium` / `IsGuildPremium`: whether `GetPremium` finds a record, and the record. */
  function IsPremium(st: Store, scope: Scope, id: string, now: int, readOk: bool): (r: Reply<(bool, Option<PremiumRecord>)>)
    ensures r.store == GetPremium(st, scope, id, now, readOk).store
    ensures r.result.Err? <==> !st.HasManager(scope) || !readOk
    ensures r.result.Err? ==> r.result.error == (if st.HasManager(scope) then DatabaseError else ManagerNotInitialized)
    ensures r.result.Ok? ==>
      (r.result.value.0 <==> id in st.Records(scope) && Active(st.Records(scope)[id], now))
      && (r.result.value.0 <==> r.result.value.1.Some?)
  {
    var g := GetPremium(st, scope, id, now, readOk);
    match g.result
    case Err(e) => Reply(g.store, Err(e))
    case Ok(rec) => Reply(g.store, Ok((rec.Some?, rec)))
  }

  /** `time.Duration.Milliseconds`: nanoseconds to whole milliseconds, truncating toward zero. */
  function Milliseconds(nanos: int): int
  {
    if nanos >= 0 then nanos / NanosPerMilli else -((-nanos) / NanosPerMilli)
  }

  /**
   * `GrantUserPremium` / `GrantGuildPremium`: a permanent record expires at
   * 0; another needs a positive duration (in nanoseconds) and expires that
   * many whole milliseconds after `now`. The record overwrites any earlier
   * one; a failed write is reported, and its queued copy lands later.
   */
  function GrantPremium(st: Store, scope: Scope, id: string, durationNanos: int, permanent: bool, now: int, writeOk: bool)
    : (r: Reply<PremiumRecord>)
    ensures !st.HasManager(scope) ==> r == Reply(st, Err(ManagerNotInitialized))
    ensures st.HasManager(scope) && !permanent && durationNanos <= 0 ==> r == Reply(st, Err(DurationRequired))
    ensures st.HasManager(scope) && (permanent || durationNanos > 0) ==>
      var rec := PremiumRecord(id, permanent, if permanent then 0 else now + Milliseconds(durationNanos));
      r.store == st.WithRecords(scope, st.Records(scope)[id := rec])
      && r.result == (if writeOk then Ok(rec) else Err(DatabaseError))
  {
    if !st.HasManager(scope) then Reply(st, Err(ManagerNotInitialized))
    else if !permanent && durationNanos <= 0 then Reply(st, Err(DurationRequired))
    else
      var expiresAt := if permanent then 0 else now + Milliseconds(durationNanos);
      var rec := PremiumRecord(id, permanent, expiresAt);
      Reply(st.WithRecords(scope, st.Records(scope)[id := rec]), if writeOk then Ok(rec) else Err(DatabaseError))
  }

  /** `RemoveUserPremium` / `RemoveGuildPremium`: the deletion's error is returned; the deletion itself lands. */
  function RemovePremium(st: Store, scope: Scope, id: string, writeOk: bool): (r: Reply<()>)
    ensures !st.HasManager(scope) ==> r == Reply(st, Err(ManagerNotInitialized))
    ensures st.HasManager(scope) ==>
      id !in r.store.Records(scope) && r.store == st.WithRecords(scope, st.Records(scope) - {id})
      && (r.result.Ok? <==> writeOk) && (!writeOk ==> r.result == Err(DatabaseError))
  {
    if !st.HasManager(scope) then Reply(st, Err(ManagerNotInitialized))
    else Reply(st.WithRecords(scope, st.Records(scope) - {id}), if writeOk then Ok(()) else Err(DatabaseError))
  }

  /**
   * A grant of at least a millisecond (or a permanent one) makes the holder
   * premium at the time of the grant, even when its write reported a failure.
   */
  lemma GrantMakesPremium(st: Store, scope: Scope, id: string, durationNanos: int, permanent: bool, now: int, writeOk: bool)
    requires st.HasManager(scope)
    requires permanent || durationNanos >= NanosPerMilli
    ensures var g := GrantPremium(st, scope, id, durationNanos, permanent, now, writeOk);
      var p := IsPremium(g.store, scope, id, now, true);
      p.result.Ok? && p.result.value.0 && p.result.value.1 == Some(g.store.Records(scope)[id])
      && (writeOk ==> g.result.Ok? && p.result.value.1 == Some(g.result.value))
  {
    var g := GrantPremium(st, scope, id, durationNanos, permanent, now, writeOk);
    assert g.store.HasManager(scope);
    assert id in g.store.Records(scope);
  }

  /**
   * A non-permanent grant of less than a millisecond is stored already
   * expired: `Milliseconds` truncates it to 0.
   */
  lemma SubMillisecondGrantIsExpired(st: Store, scope: Scope, id: string, durationNanos: int, now: int, writeOk: bool)
    requires st.HasManager(scope)
    requires 0 < durationNanos < NanosPerMilli
    ensures var g := GrantPremium(st, scope, id, durationNanos, false, now, writeOk);
      (g.result.Ok? <==> writeOk) && IsPremium(g.store, scope, id, now, true).result == Ok((false, None))
  {
    var g := GrantPremium(st, scope, id, durationNanos, false, now, writeOk);
    assert g.store.HasManager(scope);
    assert id in g.store.Records(scope);
  }

  /** Once expired, a record stays expired: asking again later still finds nothing. */
  lemma ExpiryIsFinal(st: Store, scope: Scope, id: string, now: int, later: int)
    requires st.HasManager(scope) && now <= later
    requires IsPremium(st, scope, id, now, true).result == Ok((false, None))
    ensures IsPremium(IsPremium(st, scope, id, now, true).store, scope, id, later, true).result == Ok((false, None))
  {
  }

  // -----------------------------------------------------------------------
  // Premium codes

  /** A code as `CreatePremiumCode` writes it. */
  function NewCode(code: string, codeType: string, durationDays: int, permanent: bool, createdBy: string, now: int): PremiumCode
  {
    PremiumCode(code, codeType, durationDays, permanent, false, now, "", 0, createdBy)
  }

  /**
   * `CreatePremiumCode`: only a lookup that succeeds and finds the code
   * refuses it; otherwise (a new code, or a lookup that failed) the code is
   * written unclaimed, with `now` as its creation time, and the write's
   * error, if any, is returned.
   */
  function CreatePremiumCode(st: Store, code: string, codeType: string, durationDays: int, permanent: bool, createdBy: string,
                             now: int, readOk: bool, writeOk: bool): (r: Reply<PremiumCode>)
    ensures !st.codeManager ==> r == Reply(st, Err(ManagerNotInitialized))
    ensures st.codeManager && readOk && code in st.codes ==> r == Reply(st, Err(CodeExists))
    ensures st.codeManager && !(readOk && code in st.codes) ==>
      code in r.store.codes && r.store == st.(codes := st.codes[code := r.store.codes[code]])
      && var pc := r.store.codes[code];
      pc.code == code && pc.codeType == codeType && pc.durationDays == durationDays && pc.permanent == permanent
      && !pc.isClaimed && pc.createdAt == now && pc.createdBy == createdBy
      && (r.result.Ok? <==> writeOk) && (r.result.Ok? ==> r.result.value == pc)
      && (!writeOk ==> r.result == Err(DatabaseError))
  {
    if !st.codeManager then Reply(st, Err(ManagerNotInitialized))
    else if readOk && code in st.codes then Reply(st, Err(CodeExists))
    else
      var pc := NewCode(code, codeType, durationDays, permanent, createdBy, now);
      Reply(st.(codes := st.codes[code := pc]), if writeOk then Ok(pc) else Err(DatabaseError))
  }

  /**
   * A lookup that fails is not a refusal: an existing code, claimed or not,
   * is overwritten by a fresh unclaimed one.
   */
  lemma FailedLookupOverwritesCode(st: Store, code: string, codeType: string, durationDays: int, permanent: bool,
                                   createdBy: string, now: int, writeOk: bool)
    requires st.codeManager && code in st.codes && st.codes[code].isClaimed
    ensures var r := CreatePremiumCode(st, code, codeType, durationDays, permanent, createdBy, now, false, writeOk);
      r.result != Err(CodeExists) && !r.store.codes[code].isClaimed
      && GetPremiumCode(r.store, code, true) == Ok(NewCode(code, codeType, durationDays, permanent, createdBy, now))
  {
  }

  /** `GetPremiumCode`: the stored code; `CodeNotFound` when there is none; a failed lookup's error. */
  function GetPremiumCode(st: Store, code: string, readOk: bool): (r: Result<PremiumCode>)
    ensures !st.codeManager ==> r == Err(ManagerNotInitialized)
    ensures st.codeManager && !readOk ==> r == Err(DatabaseError)
    ensures st.codeManager && readOk ==> (r.Ok? <==> code in st.codes)
    ensures st.codeManager && readOk && code !in st.codes ==> r == Err(CodeNotFound)
    ensures r.Ok? ==> code in st.codes && r.value == st.codes[code]
  {
    if !st.codeManager then Err(ManagerNotInitialized)
    else if !readOk then Err(DatabaseError)
    else if code !in st.codes then Err(CodeNotFound)
    else Ok(st.codes[code])
  }

  /** The code as it is written back when claimed. */
  function Claimed(pc: PremiumCode, claimedBy: string, now: int): PremiumCode
  {
    pc.(isClaimed := true, claimedBy := claimedBy, claimedAt := now)
  }

  /** Whether a redeem gets as far as marking the code claimed. */
  predicate ReachesClaim(st: Store, code: string, readOk: bool)
  {
    GetPremiumCode(st, code, readOk).Ok? && !st.codes[code].isClaimed
  }

  /**
   * `RedeemPremiumCode`: a failed lookup, a missing code and a claimed code
   * are refused with nothing written. Otherwise the code, which the lookup
   * handed out from the cache, is marked claimed in place before it is
   * written, so the claim stands even when the write fails (the error is
   * returned and nothing is granted). After a write that succeeds, a user
   * code grants the claimant `durationDays` days (or permanent) premium, and
   * a refused or failed grant is returned as the answer.
   */
  function RedeemPremiumCode(st: Store, code: string, claimedBy: string, now: int, readOk: bool, writeOk: bool, grantOk: bool)
    : (r: Reply<PremiumCode>)
    ensures !ReachesClaim(st, code, readOk) ==>
      r.store == st
      && r.result == (if GetPremiumCode(st, code, readOk).Err? then Err(GetPremiumCode(st, code, readOk).error) else Err(CodeAlreadyClaimed))
    ensures ReachesClaim(st, code, readOk) ==>
      var st1 := st.(codes := st.codes[code := Claimed(st.codes[code], claimedBy, now)]);
      var pc := st.codes[code];
      (!writeOk ==> r == Reply(st1, Err(DatabaseError)))
      && (writeOk && pc.codeType != UserCodeType ==> r == Reply(st1, Ok(Claimed(pc, claimedBy, now))))
      && (writeOk && pc.codeType == UserCodeType ==>
            var g := GrantPremium(st1, UserScope, claimedBy, CodeDuration(pc.durationDays), pc.permanent, now, grantOk);
            r.store == g.store && (r.result.Ok? <==> g.result.Ok?)
            && (g.result.Err? ==> r.result == Err(g.result.error)))
    ensures r.result.Ok? ==> ReachesClaim(st, code, readOk) && writeOk && r.result.value == Claimed(st.codes[code], claimedBy, now)
  {
    if !st.codeManager then Reply(st, Err(ManagerNotInitialized))
    else
      match GetPremiumCode(st, code, readOk)
      case Err(e) => Reply(st, Err(e))
      case Ok(pc) =>
        if pc.isClaimed then Reply(st, Err(CodeAlreadyClaimed))
        else
          var updated := Claimed(pc, claimedBy, now);
          var st1 := st.(codes := st.codes[code := updated]);
          if !writeOk then Reply(st1, Err(DatabaseError))
          else if pc.codeType == UserCodeType then
            var g := GrantPremium(st1, UserScope, claimedBy, CodeDuration(pc.durationDays), pc.permanent, now, grantOk);
            if g.result.Err? then Reply(g.store, Err(g.result.error)) else Reply(g.store, Ok(updated))
          else Reply(st1, Ok(updated))
  }

  /**
   * `RedeemPremiumCodeForGuild`: the claim is checked first, then the code
   * must be a guild code; it is then marked claimed and written, as in
   * `RedeemPremiumCode`, and after a successful write the guild is granted
   * its premium.
   */
  function RedeemPremiumCodeForGuild(st: Store, code: string, guildId: string, claimedBy: string, now: int,
                                     readOk: bool, writeOk: bool, grantOk: bool): (r: Reply<PremiumCode>)
    ensures !ReachesClaim(st, code, readOk) ==>
      r.store == st
      && r.result == (if GetPremiumCode(st, code, readOk).Err? then Err(GetPremiumCode(st, code, readOk).error) else Err(CodeAlreadyClaimed))
    ensures ReachesClaim(st, code, readOk) && st.codes[code].codeType != GuildCodeType ==> r == Reply(st, Err(NotAGuildCode))
    ensures ReachesClaim(st, code, readOk) && st.codes[code].codeType == GuildCodeType ==>
      var st1 := st.(codes := st.codes[code := Claimed(st.codes[code], claimedBy, now)]);
      var pc := st.codes[code];
      (!writeOk ==> r == Reply(st1, Err(DatabaseError)))
      && (writeOk ==>
            var g := GrantPremium(st1, GuildScope, guildId, CodeDuration(pc.durationDays), pc.permanent, now, grantOk);
            r.store == g.store && (r.result.Ok? <==> g.result.Ok?)
            && (g.result.Err? ==> r.result == Err(g.result.error)))
    ensures r.result.Ok? ==> ReachesClaim(st, code, readOk) && writeOk && r.result.value == Claimed(st.codes[code], claimedBy, now)
  {
    if !st.codeManager then Reply(st, Err(ManagerNotInitialized))
    else
      match GetPremiumCode(st, code, readOk)
      case Err(e) => Reply(st, Err(e))
      case Ok(pc) =>
        if pc.isClaimed then Reply(st, Err(CodeAlreadyClaimed))
        else if pc.codeType != GuildCodeType then Reply(st, Err(NotAGuildCode))
        else
          var updated := Claimed(pc, claimedBy, now);
          var st1 := st.(codes := st.codes[code := updated]);
          if !writeOk then Reply(st1, Err(DatabaseError))
          else
            var g := GrantPremium(st1, GuildScope, guildId, CodeDuration(pc.durationDays), pc.permanent, now, grantOk);
            if g.result.Err? then Reply(g.store, Err(g.result.error)) else Reply(g.store, Ok(updated))
  }

  /**
   * A redeem that gets as far as the claim leaves the code claimed, whatever
   * its write and its grant answered: a second redeem, by anyone, whose
   * lookup succeeds is refused.
   */
  lemma RedeemAtMostOnce(st: Store, code: string, first: string, second: string, now: int, later: int,
                         writeOk: bool, grantOk: bool, writeOk2: bool, grantOk2: bool)
    requires ReachesClaim(st, code, true)
    ensures var s1 := RedeemPremiumCode(st, code, first, now, true, writeOk, grantOk).store;
      code in s1.codes && s1.codes[code].isClaimed
      && RedeemPremiumCode(s1, code, second, later, true, writeOk2, grantOk2) == Reply(s1, Err(CodeAlreadyClaimed))
  {
    var r := RedeemPremiumCode(st, code, first, now, true, writeOk, grantOk);
    assert r.store.codeManager;
  }

  /**
   * When the claim's write fails the claimant is told so and granted
   * nothing, yet the code is claimed: a later redeem is refused.
   */
  lemma FailedClaimWriteLosesCode(st: Store, code: string, claimedBy: string, now: int, later: int, grantOk: bool, grantOk2: bool)
    requires ReachesClaim(st, code, true)
    ensures var r := RedeemPremiumCode(st, code, claimedBy, now, true, false, grantOk);
      r.result == Err(DatabaseError) && r.store.users == st.users
      && RedeemPremiumCode(r.store, code, claimedBy, later, true, true, grantOk2).result == Err(CodeAlreadyClaimed)
  {
    var r := RedeemPremiumCode(st, code, claimedBy, now, true, false, grantOk);
    assert r.store.codeManager;
  }

  /** The same for the guild redeem, and for a user redeem after a guild redeem. */
  lemma GuildRedeemAtMostOnce(st: Store, code: string, guildId: string, first: string, second: string, now: int, later: int,
                              writeOk: bool, grantOk: bool, writeOk2: bool, grantOk2: bool)
    requires ReachesClaim(st, code, true) && st.codes[code].codeType == GuildCodeType
    ensures var s1 := RedeemPremiumCodeForGuild(st, code, guildId, first, now, true, writeOk, grantOk).store;
      code in s1.codes && s1.codes[code].isClaimed
      && RedeemPremiumCodeForGuild(s1, code, guildId, second, later, true, writeOk2, grantOk2).result == Err(CodeAlreadyClaimed)
      && RedeemPremiumCode(s1, code, second, later, true, writeOk2, grantOk2).result == Err(CodeAlreadyClaimed)
  {
    var r := RedeemPremiumCodeForGuild(st, code, guildId, first, now, true, writeOk, grantOk);
    assert r.store.codeManager;
  }

  /**
   * A successful redeem of a user code makes the claimant premium for the
   * code's duration (or for good); a code of at most `MaxDurationDays` days
   * expires exactly that many days from `now`.
   */
  lemma RedeemGrantsUserPremium(st: Store, code: string, claimedBy: string, now: int, readOk: bool, writeOk: bool, grantOk: bool)
    requires RedeemPremiumCode(st, code, claimedBy, now, readOk, writeOk, grantOk).result.Ok?
    requires st.codes[code].codeType == UserCodeType
    ensures var pc := st.codes[code];
      var s1 := RedeemPremiumCode(st, code, claimedBy, now, readOk, writeOk, grantOk).store;
      claimedBy in s1.users && s1.users[claimedBy].permanent == pc.permanent
      && IsPremium(s1, UserScope, claimedBy, now, true).result.Ok?
      && (pc.permanent || 0 < pc.durationDays <= MaxDurationDays ==>
            s1.users[claimedBy].expiresAt == if pc.permanent then 0 else now + pc.durationDays * 24 * 60 * 60 * 1000)
  {
    var pc := st.codes[code];
    if !pc.permanent && 0 < pc.durationDays <= MaxDurationDays {
      assert CodeDuration(pc.durationDays) == pc.durationDays * NanosPerDay;
      assert Milliseconds(pc.durationDays * NanosPerDay) == pc.durationDays * 24 * 60 * 60 * 1000;
    }
  }

  /**
   * A non-permanent user code of zero (or fewer, down to
   * `-MaxDurationDays`) days is still consumed by a redeem, although the
   * grant is refused.
   */
  lemma ZeroDayUserCodeConsumed(st: Store, code: string, claimedBy: string, now: int, grantOk: bool)
    requires st.userManager && ReachesClaim(st, code, true)
    requires var pc := st.codes[code];
      pc.codeType == UserCodeType && !pc.permanent && -MaxDurationDays <= pc.durationDays <= 0
    ensures var r := RedeemPremiumCode(st, code, claimedBy, now, true, true, grantOk);
      r.result == Err(DurationRequired) && r.store.codes[code].isClaimed
      && r.store.users == st.users
  {
  }

  /**
   * A non-permanent user code of more days than an `int64` of nanoseconds
   * holds (up to twice that) wraps to a negative duration: it is consumed
   * and its grant refused, like a code of zero days.
   */
  lemma OverlongUserCodeConsumed(st: Store, code: string, claimedBy: string, now: int, grantOk: bool)
    requires st.userManager && ReachesClaim(st, code, true)
    requires var pc := st.codes[code];
      pc.codeType == UserCodeType && !pc.permanent && MaxDurationDays < pc.durationDays <= 2 * MaxDurationDays + 1
    ensures var r := RedeemPremiumCode(st, code, claimedBy, now, true, true, grantOk);
      r.result == Err(DurationRequired) && r.store.codes[code].isClaimed
      && r.store.users == st.users
  {
  }
}
