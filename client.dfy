/**
 * The bot client: the registry of commands by dispatch name, the ready flag,
 * and the path an interaction takes to a command's autocomplete or run
 * function (lookup, then the blacklist, then premium, then run).
 */
module Client {
  import opened Wrappers
  import opened Commands
  import Blacklists
  import BlacklistMiddleware
  import Premium
  import PremiumCheck

  /** `CommandCollection`: commands by dispatch name (`name`, `name.sub`, `name.group.sub`). */
  class CommandCollection {
    var commands: map<string, Command>

    /** `NewCommandCollection`. */
    constructor()
      ensures commands == map[]
    {
      commands := map[];
    }

    /** `Set`: adds or replaces the command under `name`. */
    method Set(name: string, cmd: Command)
      modifies this
      ensures commands == old(commands)[name := cmd]
      ensures Get(name) == Some(cmd)
      ensures Size() == if name in old(commands) then old(|commands|) else old(|commands|) + 1
    {
      commands := commands[name := cmd];
    }

    /** `Get`. */
    function Get(name: string): Option<Command>
      reads this
    {
      if name in commands then Some(commands[name]) else None
    }

    /** `Size`: the number of distinct names. */
    function Size(): nat
      reads this
    {
      |commands|
    }

    /** `All`: a copy of the registry; Dafny maps are values, so changing the copy cannot reach the registry. */
    method All() returns (result: map<string, Command>)
      ensures result == commands
      ensures |result| == Size()
    {
      result := map[];
      var rest := commands.Keys;
      while rest != {}
        invariant rest <= commands.Keys
        invariant result.Keys == commands.Keys - rest
        invariant forall k :: k in result ==> result[k] == commands[k]
        decreases rest
      {
        var k :| k in rest;
        result := result[k := commands[k]];
        rest := rest - {k};
      }
      assert result.Keys == commands.Keys;
    }
  }

  /**
   * The dispatch name of an interaction: `name.group.sub` when the first
   * option is a subcommand group with options, `name.sub` when it is a
   * subcommand, and the bare name otherwise.
   */
  function ResolveName(name: string, options: seq<DataOption>): (full: string)
    ensures options == [] ==> full == name
    ensures options != [] && options[0].kind == SubCommandGroup && options[0].options != [] ==>
      full == name + "." + options[0].name + "." + options[0].options[0].name
    ensures options != [] && options[0].kind == SubCommandGroup && options[0].options == [] ==> full == name
    ensures options != [] && options[0].kind == SubCommand ==> full == name + "." + options[0].name
    ensures options != [] && options[0].kind != SubCommand && options[0].kind != SubCommandGroup ==> full == name
  {
    if |options| > 0 then
      var opt := options[0];
      if opt.kind == SubCommandGroup then
        if |opt.options| > 0 then name + "." + opt.name + "." + opt.options[0].name else name
      else if opt.kind == SubCommand then name + "." + opt.name
      else name
    else name
  }

  /** Where an interaction ends up. */
  datatype Outcome =
    | Ignored
    | CommandNotFound(name: string)
    | AutoCompleteRan(name: string, autoComplete: Handler)
    | Refused(denial: BlacklistMiddleware.Denial)
    | PremiumDenied(message: string)
    | Ran(name: string, run: Option<Handler>)

  class ExtendedClient {
    const commandRegistry: CommandCollection
    var isReady: bool

    /** `NewClient`: an empty registry, not ready. */
    constructor()
      ensures fresh(commandRegistry) && commandRegistry.commands == map[] && !isReady
    {
      commandRegistry := new CommandCollection();
      isReady := false;
    }

    /** The ready handler: the session is up. */
    method OnReady()
      modifies this`isReady
      ensures isReady
    {
      isReady := true;
    }

    /** `Stop`: no longer ready (closing the session is not modelled). */
    method Stop()
      modifies this`isReady
      ensures !isReady
    {
      isReady := false;
    }

    /** `IsReady`. */
    function IsReady(): bool
      reads this
    {
      isReady
    }

    /**
     * `handleInteraction`. `requirement` is the premium the found command
     * requires (`cmd.PremiumType`, a field the command record does not
     * declare); `userReadOk` and `guildReadOk` say whether the two premium
     * lookups succeed. Autocomplete requests only reach the autocomplete
     * function; commands pass the blacklist, then premium, then run. The
     * store is the premium store as the premium lookups leave it.
     */
    method HandleInteraction(i: Interaction, blacklist: Blacklists.BlacklistCache, st: Premium.Store,
                             requirement: PremiumCheck.Requirement, now: int, userReadOk: bool, guildReadOk: bool)
      returns (outcome: Outcome, store: Premium.Store)
      requires i.kind == ApplicationCommandInteraction ==> InvokingUser(i).Some?
      ensures i.kind != Autocomplete && i.kind != ApplicationCommandInteraction ==> outcome == Ignored
      ensures var name := ResolveName(i.name, i.options);
        name !in commandRegistry.commands ==> outcome == (if i.kind == ApplicationCommandInteraction then CommandNotFound(name) else Ignored)
      ensures var name := ResolveName(i.name, i.options);
        i.kind == Autocomplete && name in commandRegistry.commands ==>
          outcome == (match commandRegistry.commands[name].autoComplete
                      case Some(f) => AutoCompleteRan(name, f)
                      case None => Ignored)
      ensures var name := ResolveName(i.name, i.options);
        i.kind == ApplicationCommandInteraction && name in commandRegistry.commands ==>
          var denial := BlacklistMiddleware.Check(blacklist, InvokingUser(i).value.id, i.guildId);
          var verdict := PremiumCheck.Check(requirement, st, InvokingUser(i).value.id, i.guildId, now, userReadOk, guildReadOk);
          (outcome.Refused? <==> denial.Some?)
          && (denial.Some? ==> outcome == Refused(denial.value) && store == st)
          && (denial.None? ==>
                (outcome.PremiumDenied? <==> !verdict.allowed)
                && (!verdict.allowed ==> outcome == PremiumDenied(verdict.message))
                && (verdict.allowed ==> outcome == Ran(name, commandRegistry.commands[name].run))
                && store == verdict.store)
      ensures i.kind == Autocomplete ==> outcome.Ignored? || outcome.AutoCompleteRan?
      ensures outcome.AutoCompleteRan? ==>
        i.kind == Autocomplete && outcome.name in commandRegistry.commands
        && commandRegistry.commands[outcome.name].autoComplete == Some(outcome.autoComplete)
      ensures outcome.Refused? ==>
        i.kind == ApplicationCommandInteraction
        && BlacklistMiddleware.Check(blacklist, InvokingUser(i).value.id, i.guildId) == Some(outcome.denial)
      ensures outcome.PremiumDenied? ==>
        i.kind == ApplicationCommandInteraction && !requirement.IsNone()
        && BlacklistMiddleware.Check(blacklist, InvokingUser(i).value.id, i.guildId).None?
        && !PremiumCheck.Check(requirement, st, InvokingUser(i).value.id, i.guildId, now, userReadOk, guildReadOk).allowed
      ensures outcome.Ran? ==>
        i.kind == ApplicationCommandInteraction
        && outcome.name == ResolveName(i.name, i.options) && outcome.name in commandRegistry.commands
        && outcome.run == commandRegistry.commands[outcome.name].run
        && BlacklistMiddleware.Check(blacklist, InvokingUser(i).value.id, i.guildId).None?
        && PremiumCheck.Check(requirement, st, InvokingUser(i).value.id, i.guildId, now, userReadOk, guildReadOk).allowed
      ensures !outcome.PremiumDenied? && !outcome.Ran? ==> store == st
    {
      store := st;
      if i.kind == Autocomplete {
        var name := ResolveName(i.name, i.options);
        var cmd := commandRegistry.Get(name);
        if cmd.None? {
          return Ignored, store;
        }
        if cmd.value.autoComplete.Some? {
          return AutoCompleteRan(name, cmd.value.autoComplete.value), store;
        }
        return Ignored, store;
      }
      if i.kind != ApplicationCommandInteraction {
        return Ignored, store;
      }
      var name := ResolveName(i.name, i.options);
      var cmd := commandRegistry.Get(name);
      if cmd.None? {
        return CommandNotFound(name), store;
      }
      var userId := InvokingUser(i).value.id;
      var denial := BlacklistMiddleware.Check(blacklist, userId, i.guildId);
      if denial.Some? {
        return Refused(denial.value), store;
      }
      if !requirement.IsNone() {
        var verdict := PremiumCheck.Check(requirement, st, userId, i.guildId, now, userReadOk, guildReadOk);
        store := verdict.store;
        if !verdict.allowed {
          return PremiumDenied(verdict.message), store;
        }
      }
      return Ran(name, cmd.value.run), store;
    }
  }
}
