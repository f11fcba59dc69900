/**
 * The premium gate in front of a command: which premium a command requires,
 * and whether the invoking user (and guild) hold it.
 */
module PremiumCheck {
  import Premium
  import opened Wrappers

  /** `Requirement`: whether user premium and/or guild premium is required. */
  datatype Requirement = Requirement(user: bool, guild: bool)
  {
    /** `IsNone`. */
    predicate IsNone() {
      !user && !guild
    }
  }

  const RequirementNone := Requirement(false, false)
  const RequirementUserOnly := Requirement(true, false)
  const RequirementGuildOnly := Requirement(false, true)
  const RequirementUserAndGuild := Requirement(true, true)

  const UserLookupFailed := "Error al verificar premium de usuario."
  const UserNotPremium := "Necesitas premium de usuario para usar este comando."
  const GuildLookupFailed := "Error al verificar premium del servidor."
  const GuildNotPremium := "Este servidor necesita premium para usar este comando."
  const GuildOnly := "Este comando solo puede usarse en un servidor."

  /** The answer of `Check`, with the premium store as the lookups leave it (expired records are dropped). */
  datatype Verdict = Verdict(allowed: bool, message: string, store: Premium.Store)

  /** Whether `scope` has its data manager and `id` holds active premium there. */
  predicate Holds(st: Premium.Store, scope: Premium.Scope, id: string, now: int) {
    st.HasManager(scope) && id in st.Records(scope) && Premium.Active(st.Records(scope)[id], now)
  }

  /**
   * `Check`: nothing required allows at once; the user requirement is looked
   * at first; a guild requirement outside a guild is refused; a failed lookup
   * refuses. `userReadOk` and `guildReadOk` say whether the two lookups
   * succeed.
   */
  function Check(req: Requirement, st: Premium.Store, userId: string, guildId: string, now: int,
                 userReadOk: bool, guildReadOk: bool): (v: Verdict)
    ensures req.IsNone() ==> v == Verdict(true, "", st)
    ensures v.allowed <==> (req.user ==> userReadOk && Holds(st, Premium.UserScope, userId, now))
                           && (req.guild ==> guildId != "" && guildReadOk && Holds(st, Premium.GuildScope, guildId, now))
    ensures v.allowed ==> v.message == ""
    ensures req.user && (!st.userManager || !userReadOk) ==> v.message == UserLookupFailed
    ensures req.user && userReadOk && st.userManager && !Holds(st, Premium.UserScope, userId, now) ==> v.message == UserNotPremium
    ensures (req.user ==> userReadOk && Holds(st, Premium.UserScope, userId, now)) && req.guild ==>
      v.message == (if guildId == "" then GuildOnly
                    else if !st.guildManager || !guildReadOk then GuildLookupFailed
                    else if !Holds(st, Premium.GuildScope, guildId, now) then GuildNotPremium
                    else "")
  {
    if req.IsNone() then Verdict(true, "", st)
    else
      var u := if req.user then Premium.IsPremium(st, Premium.UserScope, userId, now, userReadOk)
               else Premium.Reply(st, Premium.Ok((true, None)));
      if u.result.Err? then Verdict(false, UserLookupFailed, u.store)
      else if !u.result.value.0 then Verdict(false, UserNotPremium, u.store)
      else if req.guild && guildId != "" then
        var g := Premium.IsPremium(u.store, Premium.GuildScope, guildId, now, guildReadOk);
        if g.result.Err? then Verdict(false, GuildLookupFailed, g.store)
        else if !g.result.value.0 then Verdict(false, GuildNotPremium, g.store)
        else Verdict(true, "", g.store)
      else if req.guild then Verdict(false, GuildOnly, u.store)
      else Verdict(true, "", u.store)
  }
}
