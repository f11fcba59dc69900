/**
 * The blacklist gate in front of every command: a blacklisted user is
 * turned away first; inside a guild, a blacklisted guild is turned away and
 * left. The blacklist is the in-memory cache.
 */
module BlacklistMiddleware {
  import opened Wrappers
  import Blacklists

  const UserBlacklisted := "user is blacklisted"
  const GuildBlacklisted := "guild is blacklisted"

  /** Why a command was refused: the error returned, the "Razón" field of the reply, and the guild to leave. */
  datatype Denial = Denial(error: string, reasonField: Option<string>, leaveGuild: Option<string>)

  /** The "Razón" field: only for an entry with a non-empty reason. */
  function ReasonField(entry: Option<Blacklists.Blacklist>): (f: Option<string>)
    ensures f.Some? <==> entry.Some? && entry.value.reason != ""
    ensures f.Some? ==> f.value == entry.value.reason
  {
    if entry.Some? && entry.value.reason != "" then Some(entry.value.reason) else None
  }

  /** `BlacklistMiddleware`: nil when the command may go on, else the refusal. */
  function Check(cache: Blacklists.BlacklistCache, userId: string, guildId: string): (d: Option<Denial>)
    reads cache
    ensures d.None? <==> !cache.IsUserBlacklisted(userId).0 && (guildId == "" || !cache.IsGuildBlacklisted(guildId).0)
    ensures cache.IsUserBlacklisted(userId).0 ==>
      d == Some(Denial(UserBlacklisted, ReasonField(cache.IsUserBlacklisted(userId).1), None))
    ensures d.Some? && d.value.error == GuildBlacklisted ==>
      guildId != "" && cache.IsGuildBlacklisted(guildId).0 && d.value.leaveGuild == Some(guildId)
      && d.value.reasonField == ReasonField(cache.IsGuildBlacklisted(guildId).1)
  {
    var (userHit, userEntry) := cache.IsUserBlacklisted(userId);
    if userHit then Some(Denial(UserBlacklisted, ReasonField(userEntry), None))
    else if guildId != "" then
      var (guildHit, guildEntry) := cache.IsGuildBlacklisted(guildId);
      if guildHit then Some(Denial(GuildBlacklisted, ReasonField(guildEntry), Some(guildId)))
      else None
    else None
  }

  /** Outside a guild only the user's entry matters. */
  lemma NoGuildNoGuildCheck(cache: Blacklists.BlacklistCache, userId: string)
    ensures Check(cache, userId, "").None? <==> !cache.IsUserBlacklisted(userId).0
    ensures Check(cache, userId, "").Some? ==> Check(cache, userId, "").value.leaveGuild.None?
  {
  }
}
