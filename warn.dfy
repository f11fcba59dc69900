/**
 * The moderation `/warn` command and the warn records it keeps: one
 * document per guild and user holding that user's warnings in the order
 * they were given. The documents of one collection are a map from
 * (guild, user), as later reads find them once any queued write has been
 * replayed: a write that fails is queued for replay, so its document still
 * lands, and only the reply reports the error. Whether the database read
 * and write succeed are parameters, and so are the member lookups Discord
 * answers.
 */
module Warn {
  import opened Wrappers

  // -----------------------------------------------------------------------
  // models/warns.go

  /** `models.Warn`; the timestamp is in Unix seconds. */
  datatype Warning = Warning(reason: string, moderator: string, id: string, timestamp: int)

  /** `models.WarnsDocument`. */
  datatype WarnsDocument = WarnsDocument(guildId: string, userId: string, warns: seq<Warning>)

  /** The documents of one collection, by the query's guild and user. */
  type WarnStore = map<(string, string), WarnsDocument>

  /** The collection `/warn` opens its own data manager on. */
  const WarnCollection := "Warns"

  // -----------------------------------------------------------------------
  // getHighestRolePosition

  datatype Role = Role(id: string, position: int)

  /** `roleMap`: each role ID to its position; for a repeated ID the later role wins. */
  function RoleMap(roles: seq<Role>): (m: map<string, int>)
    ensures m.Keys == set r | r in roles :: r.id
  {
    if roles == [] then map[]
    else
      var n := |roles| - 1;
      assert forall r :: r in roles <==> r in roles[..n] || r == roles[n];
      RoleMap(roles[..n])[roles[n].id := roles[n].position]
  }

  /** Each ID maps to the position of the last role that carries it. */
  lemma {:induction false} RoleMapLastWins(roles: seq<Role>, i: int)
    requires 0 <= i < |roles|
    requires forall j :: i < j < |roles| ==> roles[j].id != roles[i].id
    ensures RoleMap(roles)[roles[i].id] == roles[i].position
  {
    var n := |roles| - 1;
    if i < n {
      assert roles[..n][i] == roles[i];
      assert forall j :: i < j < n ==> roles[..n][j] == roles[j];
      RoleMapLastWins(roles[..n], i);
    }
  }

  /** The loop that fills `roleMap`. */
  method BuildRoleMap(roles: seq<Role>) returns (m: map<string, int>)
    ensures m == RoleMap(roles)
  {
    m := map[];
    for i := 0 to |roles|
      invariant m == RoleMap(roles[..i])
    {
      assert roles[..i + 1][..i] == roles[..i];
      m := m[roles[i].id := roles[i].position];
    }
    assert roles[..|roles|] == roles;
  }

  /**
   * The highest position among the member's roles the guild knows, or 0:
   * no smaller than 0 or than any known role of the member, and either 0 or
   * the position of one of them. Unknown role IDs play no part.
   */
  function Highest(roleMap: map<string, int>, memberRoles: seq<string>): (h: int)
    ensures h >= 0
    ensures forall i :: 0 <= i < |memberRoles| && memberRoles[i] in roleMap ==> roleMap[memberRoles[i]] <= h
    ensures h == 0 || exists i :: 0 <= i < |memberRoles| && memberRoles[i] in roleMap && roleMap[memberRoles[i]] == h
  {
    if memberRoles == [] then 0
    else
      var n := |memberRoles| - 1;
      var before := Highest(roleMap, memberRoles[..n]);
      assert forall i :: 0 <= i < n ==> memberRoles[..n][i] == memberRoles[i];
      var id := memberRoles[n];
      if id in roleMap && roleMap[id] > before then roleMap[id] else before
  }

  /** Roles the guild does not know change nothing. */
  lemma {:induction false} UnknownRolesIgnored(roleMap: map<string, int>, memberRoles: seq<string>, unknown: string)
    requires unknown !in roleMap
    ensures Highest(roleMap, memberRoles + [unknown]) == Highest(roleMap, memberRoles)
  {
    assert (memberRoles + [unknown])[..|memberRoles|] == memberRoles;
  }

  /** `getHighestRolePosition`. */
  method HighestRolePosition(guildRoles: seq<Role>, memberRoles: seq<string>) returns (highest: int)
    ensures highest == Highest(RoleMap(guildRoles), memberRoles)
  {
    var roleMap := BuildRoleMap(guildRoles);
    highest := 0;
    for i := 0 to |memberRoles|
      invariant highest == Highest(roleMap, memberRoles[..i])
    {
      assert memberRoles[..i + 1][..i] == memberRoles[..i];
      if memberRoles[i] in roleMap {
        var pos := roleMap[memberRoles[i]];
        if pos > highest {
          highest := pos;
        }
      }
    }
    assert memberRoles[..|memberRoles|] == memberRoles;
  }

  // -----------------------------------------------------------------------
  // The hierarchy rule and the warn ID

  /** A moderator may not warn a member whose highest role is not below theirs, unless the moderator owns the guild. */
  predicate OutranksTarget(targetPosition: int, executorPosition: int, executor: string, owner: string)
  {
    !(targetPosition >= executorPosition && executor != owner)
  }

  /** The owner may warn anyone; anyone else only members ranked strictly below them. */
  lemma HierarchyRule(targetPosition: int, executorPosition: int, executor: string, owner: string)
    ensures executor == owner ==> OutranksTarget(targetPosition, executorPosition, executor, owner)
    ensures executor != owner ==> (OutranksTarget(targetPosition, executorPosition, executor, owner) <==> targetPosition < executorPosition)
  {
  }

  predicate IsHexDigit(c: char) { '0' <= c <= '9' || 'a' <= c <= 'f' }

  /** The canonical text of a UUID: 8-4-4-4-12 lower-case hex digits separated by dashes. */
  predicate IsUuid(u: string)
  {
    |u| == 36
    && (forall i :: 0 <= i < 36 ==> (u[i] == '-' <==> i in {8, 13, 18, 23}))
    && (forall i :: 0 <= i < 36 && u[i] != '-' ==> IsHexDigit(u[i]))
  }

  /** `strings.ReplaceAll(s, "-", "")`. */
  function StripDashes(s: string): (r: string)
    ensures |r| <= |s|
    ensures forall i :: 0 <= i < |r| ==> r[i] != '-'
  {
    if s == [] then []
    else (if s[0] == '-' then [] else [s[0]]) + StripDashes(s[1..])
  }

  /** Stripping the dashes keeps a dash-free prefix in place. */
  lemma {:induction false} StripKeepsPrefix(s: string, n: nat)
    requires n <= |s| && forall i :: 0 <= i < n ==> s[i] != '-'
    ensures |StripDashes(s)| >= n && StripDashes(s)[..n] == s[..n]
  {
    if n > 0 {
      StripKeepsPrefix(s[1..], n - 1);
    }
  }

  /** The warn ID: the first six characters of the UUID once its dashes are removed. */
  function ShortId(uuid: string): (id: string)
    requires IsUuid(uuid)
    ensures |id| == 6
  {
    StripKeepsPrefix(uuid, 8);
    StripDashes(uuid)[..6]
  }

  /** Since a UUID's first group has eight digits, the warn ID is simply its first six, all hex digits. */
  lemma ShortIdIsUuidPrefix(uuid: string)
    requires IsUuid(uuid)
    ensures ShortId(uuid) == uuid[..6]
    ensures forall i :: 0 <= i < 6 ==> IsHexDigit(ShortId(uuid)[i])
  {
    StripKeepsPrefix(uuid, 8);
    assert StripDashes(uuid)[..6] == StripDashes(uuid)[..8][..6];
  }

  // -----------------------------------------------------------------------
  // Recording a warning

  /** The warnings a user already has in a guild (none without a document). */
  function Prior(store: WarnStore, guildId: string, userId: string): seq<Warning>
  {
    if (guildId, userId) in store then store[(guildId, userId)].warns else []
  }

  /**
   * The write step: a user without a document gets a new one holding just
   * the warning; otherwise the warning goes at the end of the existing list.
   */
  function Record(store: WarnStore, guildId: string, userId: string, w: Warning): (after: WarnStore)
    ensures (guildId, userId) in after && after[(guildId, userId)].warns == Prior(store, guildId, userId) + [w]
    ensures (guildId, userId) !in store ==> after[(guildId, userId)] == WarnsDocument(guildId, userId, [w])
    ensures (guildId, userId) in store ==> after[(guildId, userId)] == store[(guildId, userId)].(warns := store[(guildId, userId)].warns + [w])
    ensures after.Keys == store.Keys + {(guildId, userId)}
    ensures forall k :: k in store && k != (guildId, userId) ==> after[k] == store[k]
  {
    var key := (guildId, userId);
    if key !in store then store[key := WarnsDocument(guildId, userId, [w])]
    else store[key := store[key].(warns := store[key].warns + [w])]
  }

  /** Recording adds exactly one warning for that user and none for anyone else. */
  lemma RecordCounts(store: WarnStore, guildId: string, userId: string, w: Warning, g: string, u: string)
    ensures |Prior(Record(store, guildId, userId, w), g, u)|
         == |Prior(store, g, u)| + (if (g, u) == (guildId, userId) then 1 else 0)
  {
  }

  // -----------------------------------------------------------------------
  // warnHandler

  datatype User = User(id: string, bot: bool)

  datatype Guild = Guild(id: string, ownerId: string, roles: seq<Role>)

  const DefaultReason := "Razón no proporcionada"
  const NoUser := "❌ Debes especificar un usuario válido."
  const NotYourself := "❌ No puedes advertirte a ti misma."
  const NotABot := "❌ No puedes advertir a un bot."
  const NoGuild := "❌ Error obteniendo información del servidor."
  const NotTheOwner := "❌ No puedes advertir al dueño del servidor."
  const NoMember := "❌ No se pudo obtener la información del miembro objetivo."
  const Outranked := "❌ No puedes advertir a un usuario con un rol mayor o igual al tuyo."

  /**
   * How the command ended: refused with an ephemeral message, the first
   * reply failed, the read failed, the write failed, or the warning was
   * recorded.
   */
  datatype WarnOutcome = Refused(message: string) | ReplyFailed | ReadFailed | SaveFailed | Warned(warning: Warning)

  /**
   * `warnHandler`. The checks run in order: a target, not oneself, not a
   * bot, a guild, not its owner, the target's member record, the role
   * hierarchy; each refusal leaves the store alone, as do a failed reply
   * and a failed read. Once the read succeeds the warning is recorded, even
   * when the write fails (it is queued, and the cached document it came
   * from already holds it). `store` is the collection `WarnCollection`,
   * `targetRoles` the target member's roles (None when the lookup fails),
   * `now` the clock in Unix seconds.
   */
  method WarnUser(target: Option<User>, razon: string, executor: string, executorRoles: seq<string>,
                  guild: Option<Guild>, targetRoles: Option<seq<string>>, replyOk: bool,
                  uuid: string, now: int, store: WarnStore, readOk: bool, writeOk: bool)
    returns (outcome: WarnOutcome, after: WarnStore)
    requires IsUuid(uuid)
    ensures !(outcome.Warned? || outcome == SaveFailed) ==> after == store
    ensures target.None? ==> outcome == Refused(NoUser)
    ensures target.Some? && target.value.id == executor ==> outcome == Refused(NotYourself)
    ensures target.Some? && target.value.id != executor && target.value.bot ==> outcome == Refused(NotABot)
    ensures target.Some? && target.value.id != executor && !target.value.bot && guild.None? ==> outcome == Refused(NoGuild)
    ensures target.Some? && target.value.id != executor && !target.value.bot && guild.Some? && target.value.id == guild.value.ownerId ==>
      outcome == Refused(NotTheOwner)
    ensures (target.Some? && target.value.id != executor && !target.value.bot && guild.Some? && target.value.id != guild.value.ownerId
             && targetRoles.None?) ==> outcome == Refused(NoMember)
    ensures (target.Some? && target.value.id != executor && !target.value.bot && guild.Some? && target.value.id != guild.value.ownerId
             && targetRoles.Some?
             && !OutranksTarget(Highest(RoleMap(guild.value.roles), targetRoles.value), Highest(RoleMap(guild.value.roles), executorRoles),
                                executor, guild.value.ownerId)) ==> outcome == Refused(Outranked)
    ensures outcome.Refused? && outcome.message == Outranked ==>
      targetRoles.Some? && guild.Some?
      && !OutranksTarget(Highest(RoleMap(guild.value.roles), targetRoles.value), Highest(RoleMap(guild.value.roles), executorRoles),
                         executor, guild.value.ownerId)
    ensures !outcome.Refused? ==>
      target.Some? && target.value.id != executor && !target.value.bot && guild.Some? && target.value.id != guild.value.ownerId
      && targetRoles.Some?
      && OutranksTarget(Highest(RoleMap(guild.value.roles), targetRoles.value), Highest(RoleMap(guild.value.roles), executorRoles),
                        executor, guild.value.ownerId)
    ensures outcome == ReplyFailed <==> !outcome.Refused? && !replyOk
    ensures outcome == ReadFailed <==> !outcome.Refused? && replyOk && !readOk
    ensures outcome == SaveFailed <==> !outcome.Refused? && replyOk && readOk && !writeOk
    ensures outcome.Warned? <==> !outcome.Refused? && replyOk && readOk && writeOk
    ensures outcome.Warned? ==>
      outcome.warning == Warning(if razon == "" then DefaultReason else razon, executor, ShortId(uuid), now)
      && after == Record(store, guild.value.id, target.value.id, outcome.warning)
    ensures outcome.Warned? || outcome == SaveFailed ==>
      after == Record(store, guild.value.id, target.value.id,
                      Warning(if razon == "" then DefaultReason else razon, executor, ShortId(uuid), now))
  {
    after := store;
    var reason := if razon == "" then DefaultReason else razon;
    if target.None? {
      return Refused(NoUser), after;
    }
    var user := target.value;
    if user.id == executor {
      return Refused(NotYourself), after;
    }
    if user.bot {
      return Refused(NotABot), after;
    }
    if guild.None? {
      return Refused(NoGuild), after;
    }
    var g := guild.value;
    if user.id == g.ownerId {
      return Refused(NotTheOwner), after;
    }
    if targetRoles.None? {
      return Refused(NoMember), after;
    }
    var executorPosition := HighestRolePosition(g.roles, executorRoles);
    var targetPosition := HighestRolePosition(g.roles, targetRoles.value);
    if targetPosition >= executorPosition && executor != g.ownerId {
      return Refused(Outranked), after;
    }
    if !replyOk {
      return ReplyFailed, after;
    }
    var w := Warning(reason, executor, ShortId(uuid), now);
    if !readOk {
      return ReadFailed, after;
    }
    var key := (g.id, user.id);
    var doc: WarnsDocument;
    if key !in store {
      doc := WarnsDocument(g.id, user.id, [w]);
    } else {
      doc := store[key];
      doc := doc.(warns := doc.warns + [w]);
    }
    after := store[key := doc];
    if !writeOk {
      return SaveFailed, after;
    }
    return Warned(w), after;
  }
}
