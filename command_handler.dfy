/**
 * Command registration: each command is filed in the client's registry
 * under its dispatch name, and its application command is kept for
 * publication, globally or in the development guild.
 */
module CommandHandler {
  import opened Wrappers
  import opened Commands
  import opened Client

  /** The subcommand option a command becomes inside a group. */
  function SubcommandOption(c: Command): CommandOption
    reads c
  {
    CommandOption(SubCommand, c.name, c.description, false, c.options)
  }

  /** The subcommand options of `subs`, in input order. */
  function SubcommandOptions(subs: seq<Command>): (opts: seq<CommandOption>)
    reads set c | c in subs
    ensures |opts| == |subs|
    ensures forall i :: 0 <= i < |subs| ==> opts[i] == SubcommandOption(subs[i])
  {
    if subs == [] then []
    else
      var n := |subs| - 1;
      SubcommandOptions(subs[..n]) + [SubcommandOption(subs[n])]
  }

  /** `m` with every command of `subs` filed under `prefix + name`, later ones replacing earlier ones. */
  function Register(m: map<string, Command>, prefix: string, subs: seq<Command>): map<string, Command>
    reads set c | c in subs
  {
    if subs == [] then m
    else
      var n := |subs| - 1;
      Register(m, prefix, subs[..n])[prefix + subs[n].name := subs[n]]
  }

  /**
   * After registering, each subcommand's full name is filed, holding that
   * subcommand unless a later one has the same name; the only new names are
   * the subcommands' full names.
   */
  lemma {:induction false} RegisterFiles(m: map<string, Command>, prefix: string, subs: seq<Command>, i: int)
    requires 0 <= i < |subs|
    requires forall j :: i < j < |subs| ==> subs[j].name != subs[i].name
    ensures prefix + subs[i].name in Register(m, prefix, subs)
    ensures Register(m, prefix, subs)[prefix + subs[i].name] == subs[i]
    decreases |subs|
  {
    var n := |subs| - 1;
    if i < n {
      RegisterFiles(m, prefix, subs[..n], i);
      assert (prefix + subs[n].name)[|prefix|..] == subs[n].name;
      assert (prefix + subs[i].name)[|prefix|..] == subs[i].name;
    }
  }

  /** Registering adds only the subcommands' full names. */
  lemma {:induction false} RegisterKeys(m: map<string, Command>, prefix: string, subs: seq<Command>)
    ensures forall k :: k in Register(m, prefix, subs) ==> k in m || exists i :: 0 <= i < |subs| && k == prefix + subs[i].name
    decreases |subs|
  {
    if subs != [] {
      var n := |subs| - 1;
      RegisterKeys(m, prefix, subs[..n]);
      forall k | k in Register(m, prefix, subs) && k !in m
        ensures exists i :: 0 <= i < |subs| && k == prefix + subs[i].name
      {
        if k != prefix + subs[n].name {
          var i :| 0 <= i < n && k == prefix + subs[..n][i].name;
          assert subs[..n][i] == subs[i];
        }
      }
    }
  }

  class CommandHandler {
    const client: ExtendedClient
    var slashCommands: seq<ApplicationCommand>
    var slashCommandsDev: seq<ApplicationCommand>

    /** `NewCommandHandler`: nothing to publish yet. */
    constructor(client: ExtendedClient)
      ensures this.client == client && slashCommands == [] && slashCommandsDev == []
    {
      this.client := client;
      slashCommands := [];
      slashCommandsDev := [];
    }

    /**
     * `RegisterCommand`: filed under its own name; its application command
     * joins the development list when the command is dev-only, the global
     * list otherwise.
     */
    method RegisterCommand(cmd: Command)
      modifies client.commandRegistry, this`slashCommands, this`slashCommandsDev
      ensures client.commandRegistry.commands == old(client.commandRegistry.commands)[cmd.name := cmd]
      ensures cmd.isDev ==> slashCommandsDev == old(slashCommandsDev) + [cmd.ToApplicationCommand()] && slashCommands == old(slashCommands)
      ensures !cmd.isDev ==> slashCommands == old(slashCommands) + [cmd.ToApplicationCommand()] && slashCommandsDev == old(slashCommandsDev)
    {
      client.commandRegistry.Set(cmd.name, cmd);
      var appCmd := cmd.ToApplicationCommand();
      if cmd.isDev {
        slashCommandsDev := slashCommandsDev + [appCmd];
      } else {
        slashCommands := slashCommands + [appCmd];
      }
    }

    /** `RegisterSubcommand`: filed under `group.name`. */
    method RegisterSubcommand(groupName: string, cmd: Command)
      modifies client.commandRegistry
      ensures client.commandRegistry.commands == old(client.commandRegistry.commands)[groupName + "." + cmd.name := cmd]
    {
      client.commandRegistry.Set(groupName + "." + cmd.name, cmd);
    }

    /** `RegisterSubcommandGroup`: filed under `group.subgroup.name`. */
    method RegisterSubcommandGroup(groupName: string, subgroupName: string, cmd: Command)
      modifies client.commandRegistry
      ensures client.commandRegistry.commands == old(client.commandRegistry.commands)[groupName + "." + subgroupName + "." + cmd.name := cmd]
    {
      client.commandRegistry.Set(groupName + "." + subgroupName + "." + cmd.name, cmd);
    }

    /**
     * `BuildCommandGroup`: one subcommand option per input, in input order,
     * each input filed under `name.sub`.
     */
    method BuildCommandGroup(name: string, description: string, subcommands: seq<Command>) returns (app: ApplicationCommand)
      modifies client.commandRegistry
      ensures app == ApplicationCommand(name, description, SubcommandOptions(subcommands))
      ensures client.commandRegistry.commands == Register(old(client.commandRegistry.commands), name + ".", subcommands)
    {
      var registry := client.commandRegistry;
      var options: seq<CommandOption> := [];
      var i := 0;
      while i < |subcommands|
        invariant 0 <= i <= |subcommands|
        invariant options == SubcommandOptions(subcommands[..i])
        invariant registry.commands == Register(old(registry.commands), name + ".", subcommands[..i])
      {
        var cmd := subcommands[i];
        assert subcommands[..i + 1][..i] == subcommands[..i];
        registry.Set(name + "." + cmd.name, cmd);
        options := options + [SubcommandOption(cmd)];
        i := i + 1;
      }
      assert subcommands[..i] == subcommands;
      return ApplicationCommand(name, description, options);
    }

    /**
     * `BuildSubcommandGroup`: a subcommand-group option whose options follow
     * the input order, each input filed under `group.name.sub`.
     */
    method BuildSubcommandGroup(groupName: string, name: string, description: string, subcommands: seq<Command>)
      returns (opt: CommandOption)
      modifies client.commandRegistry
      ensures opt == CommandOption(SubCommandGroup, name, description, false, SubcommandOptions(subcommands))
      ensures client.commandRegistry.commands == Register(old(client.commandRegistry.commands), groupName + "." + name + ".", subcommands)
    {
      var registry := client.commandRegistry;
      var options: seq<CommandOption> := [];
      var i := 0;
      while i < |subcommands|
        invariant 0 <= i <= |subcommands|
        invariant options == SubcommandOptions(subcommands[..i])
        invariant registry.commands == Register(old(registry.commands), groupName + "." + name + ".", subcommands[..i])
      {
        var cmd := subcommands[i];
        assert subcommands[..i + 1][..i] == subcommands[..i];
        assert groupName + "." + name + "." + cmd.name == (groupName + "." + name + ".") + cmd.name;
        registry.Set(groupName + "." + name + "." + cmd.name, cmd);
        options := options + [SubcommandOption(cmd)];
        i := i + 1;
      }
      assert subcommands[..i] == subcommands;
      return CommandOption(SubCommandGroup, name, description, false, options);
    }

    /** `AddGlobalCommand`: only the global list grows. */
    method AddGlobalCommand(cmd: ApplicationCommand)
      modifies this`slashCommands
      ensures slashCommands == old(slashCommands) + [cmd]
    {
      slashCommands := slashCommands + [cmd];
    }

    /** `AddDevCommand`: only the development list grows. */
    method AddDevCommand(cmd: ApplicationCommand)
      modifies this`slashCommandsDev
      ensures slashCommandsDev == old(slashCommandsDev) + [cmd]
    {
      slashCommandsDev := slashCommandsDev + [cmd];
    }

    /**
     * `RegisterCommands`: what is published where (the guild "" meaning
     * global): every global command, then the development commands in the
     * development guild when one is configured.
     */
    function Publications(devGuildId: string): (p: seq<(string, ApplicationCommand)>)
      reads this
      ensures |p| == |slashCommands| + (if devGuildId != "" then |slashCommandsDev| else 0)
      ensures forall i :: 0 <= i < |slashCommands| ==> p[i] == ("", slashCommands[i])
      ensures forall i :: |slashCommands| <= i < |p| ==> p[i] == (devGuildId, slashCommandsDev[i - |slashCommands|])
    {
      var global, dev := slashCommands, slashCommandsDev;
      var globals := seq(|global|, i requires 0 <= i < |global| => ("", global[i]));
      if devGuildId != "" && |dev| > 0 then
        globals + seq(|dev|, i requires 0 <= i < |dev| => (devGuildId, dev[i]))
      else globals
    }
  }

  /**
   * The names `BuildCommandGroup` files are the ones an interaction resolves
   * to: invoking subcommand `subs[i]` of the group reaches `subs[i]`.
   */
  lemma GroupNamesResolve(m: map<string, Command>, name: string, subs: seq<Command>, i: int, invoked: DataOption, rest: seq<DataOption>)
    requires 0 <= i < |subs|
    requires forall j :: i < j < |subs| ==> subs[j].name != subs[i].name
    requires invoked.kind == SubCommand && invoked.name == subs[i].name
    ensures ResolveName(name, [invoked] + rest) in Register(m, name + ".", subs)
    ensures Register(m, name + ".", subs)[ResolveName(name, [invoked] + rest)] == subs[i]
  {
    assert ResolveName(name, [invoked] + rest) == (name + ".") + subs[i].name;
    RegisterFiles(m, name + ".", subs, i);
  }

  /** The same for `BuildSubcommandGroup` inside command `groupName`. */
  lemma SubgroupNamesResolve(m: map<string, Command>, groupName: string, name: string, subs: seq<Command>, i: int,
                             invoked: DataOption, rest: seq<DataOption>)
    requires 0 <= i < |subs|
    requires forall j :: i < j < |subs| ==> subs[j].name != subs[i].name
    requires invoked.kind == SubCommandGroup && invoked.name == name
    requires invoked.options != [] && invoked.options[0].name == subs[i].name
    ensures ResolveName(groupName, [invoked] + rest) in Register(m, groupName + "." + name + ".", subs)
    ensures Register(m, groupName + "." + name + ".", subs)[ResolveName(groupName, [invoked] + rest)] == subs[i]
  {
    assert ResolveName(groupName, [invoked] + rest) == (groupName + "." + name + ".") + subs[i].name;
    RegisterFiles(m, groupName + "." + name + ".", subs, i);
  }
}
