/**
 * Slash commands: the `Command` record and its builder, the application
 * command it is published as, and the lookups a running command makes in
 * the options of the interaction that invoked it.
 *
 * Go function values (`Run`, `AutoComplete`) are modelled by identity only:
 * `None` for nil, `Some(h)` for some function `h`.
 */
module Commands {
  import opened Wrappers

  /** `discordgo.ApplicationCommandOptionType`, for the kinds the bot uses. */
  datatype OptionType =
    | SubCommand
    | SubCommandGroup
    | StringOption
    | IntegerOption
    | BooleanOption
    | UserOption
    | ChannelOption
    | RoleOption
    | OtherOption(code: int)

  /** `discordgo.ApplicationCommandOption`: one option of a command's definition. */
  datatype CommandOption = CommandOption(
    kind: OptionType, name: string, description: string, required: bool, options: seq<CommandOption>)

  /** `discordgo.ApplicationCommand`: what is published to Discord. */
  datatype ApplicationCommand = ApplicationCommand(name: string, description: string, options: seq<CommandOption>)

  /** A Go function value, by identity. */
  type Handler = nat

  class Command {
    var name: string
    var description: string
    var category: string
    var options: seq<CommandOption>
    var userPermissions: int
    var botPermissions: int
    var isDev: bool
    var inVoiceChannel: bool
    var requiresDB: bool
    var run: Option<Handler>
    var autoComplete: Option<Handler>

    /** `NewCommand`: the four given fields; no options, no permissions, no flags, no autocomplete. */
    constructor(name: string, description: string, category: string, run: Option<Handler>)
      ensures this.name == name && this.description == description && this.category == category && this.run == run
      ensures options == [] && userPermissions == 0 && botPermissions == 0
      ensures !isDev && !inVoiceChannel && !requiresDB && autoComplete == None
    {
      this.name := name;
      this.description := description;
      this.category := category;
      this.run := run;
      options := [];
      userPermissions := 0;
      botPermissions := 0;
      isDev := false;
      inVoiceChannel := false;
      requiresDB := false;
      autoComplete := None;
    }

    /** `WithOptions`: replaces the options; returns the same command. */
    method WithOptions(opts: seq<CommandOption>) returns (self: Command)
      modifies this`options
      ensures self == this && options == opts
    {
      options := opts;
      return this;
    }

    /** `WithUserPermissions`. */
    method WithUserPermissions(perms: int) returns (self: Command)
      modifies this`userPermissions
      ensures self == this && userPermissions == perms
    {
      userPermissions := perms;
      return this;
    }

    /** `WithBotPermissions`. */
    method WithBotPermissions(perms: int) returns (self: Command)
      modifies this`botPermissions
      ensures self == this && botPermissions == perms
    {
      botPermissions := perms;
      return this;
    }

    /** `AsDev`. */
    method AsDev() returns (self: Command)
      modifies this`isDev
      ensures self == this && isDev
    {
      isDev := true;
      return this;
    }

    /** `RequiresVoice`. */
    method RequiresVoice() returns (self: Command)
      modifies this`inVoiceChannel
      ensures self == this && inVoiceChannel
    {
      inVoiceChannel := true;
      return this;
    }

    /** `RequiresDatabase`. */
    method RequiresDatabase() returns (self: Command)
      modifies this`requiresDB
      ensures self == this && requiresDB
    {
      requiresDB := true;
      return this;
    }

    /** `WithAutoComplete`. */
    method WithAutoComplete(fn: Option<Handler>) returns (self: Command)
      modifies this`autoComplete
      ensures self == this && autoComplete == fn
    {
      autoComplete := fn;
      return this;
    }

    /** `ToApplicationCommand`: name, description and options as they are. */
    function ToApplicationCommand(): ApplicationCommand
      reads this
    {
      ApplicationCommand(name, description, options)
    }
  }

  /**
   * Building a command does not change what is published except through
   * `WithOptions`: the flags and permissions stay private to the bot.
   */
  method BuildTestCommand(opt: CommandOption, run: Handler) returns (cmd: Command)
    ensures cmd.ToApplicationCommand() == ApplicationCommand("test", "Test command", [opt])
    ensures cmd.isDev && cmd.userPermissions == 8 && cmd.run == Some(run)
  {
    cmd := new Command("test", "Test command", "test", Some(run));
    var same := cmd.WithOptions([opt]);
    assert same == cmd;
    same := cmd.WithUserPermissions(8);
    same := cmd.AsDev();
  }

  // -----------------------------------------------------------------------
  // Interactions

  datatype InteractionType = Ping | ApplicationCommandInteraction | MessageComponent | Autocomplete | ModalSubmit

  /** The value an invoked option carries, typed by the option's kind. */
  datatype Value = NoValue | Str(s: string) | Int(i: int) | Bool(b: bool) | Snowflake(id: string)

  /** `discordgo.ApplicationCommandInteractionDataOption`: an option as invoked, with its sub-options. */
  datatype DataOption = DataOption(name: string, kind: OptionType, value: Value, options: seq<DataOption>)

  datatype User = User(id: string)
  datatype Member = Member(user: Option<User>)

  /** The parts of `discordgo.InteractionCreate` the bot reads. */
  datatype Interaction = Interaction(
    kind: InteractionType, name: string, guildId: string, channelId: string,
    member: Option<Member>, user: Option<User>, options: seq<DataOption>)

  /** The options of `options` in depth-first pre-order: each before its sub-options, then its later siblings. */
  function Flatten(options: seq<DataOption>): seq<DataOption>
    decreases options
  {
    if options == [] then []
    else [options[0]] + Flatten(options[0].options) + Flatten(options[1..])
  }

  /** The first option called `name` in a list. */
  function FirstNamed(s: seq<DataOption>, name: string): (r: Option<DataOption>)
    ensures r.Some? ==> r.value in s && r.value.name == name
    ensures r.None? <==> forall o :: o in s ==> o.name != name
  {
    if s == [] then None
    else if s[0].name == name then Some(s[0])
    else FirstNamed(s[1..], name)
  }

  lemma {:induction false} FirstNamedAppend(a: seq<DataOption>, b: seq<DataOption>, name: string)
    ensures FirstNamed(a + b, name) == if FirstNamed(a, name).Some? then FirstNamed(a, name) else FirstNamed(b, name)
  {
    if a != [] {
      assert (a + b)[1..] == a[1..] + b;
      FirstNamedAppend(a[1..], b, name);
    } else {
      assert a + b == b;
    }
  }

  /** `findOption`: each option is tried before its sub-options, which are tried before its later siblings. */
  function FindOption(options: seq<DataOption>, name: string): Option<DataOption>
    decreases options
  {
    if options == [] then None
    else if options[0].name == name then Some(options[0])
    else
      var inner := if |options[0].options| > 0 then FindOption(options[0].options, name) else None;
      if inner.Some? then inner else FindOption(options[1..], name)
  }

  /** `findOption` is a depth-first pre-order search: it finds the first option so named at any depth. */
  lemma {:induction false} FindOptionIsPreorder(options: seq<DataOption>, name: string)
    ensures FindOption(options, name) == FirstNamed(Flatten(options), name)
    decreases options
  {
    if options != [] {
      var o := options[0];
      FindOptionIsPreorder(o.options, name);
      FindOptionIsPreorder(options[1..], name);
      FirstNamedAppend([o] + Flatten(o.options), Flatten(options[1..]), name);
      FirstNamedAppend([o], Flatten(o.options), name);
      assert ([o] + Flatten(o.options))[1..] == Flatten(o.options);
    }
  }

  /** Whatever the nesting, an option is found exactly when one with that name exists. */
  lemma FindOptionFinds(options: seq<DataOption>, name: string)
    ensures FindOption(options, name).Some? <==> exists o :: o in Flatten(options) && o.name == name
    ensures FindOption(options, name).Some? ==> FindOption(options, name).value.name == name
  {
    FindOptionIsPreorder(options, name);
  }

  /** `GetStringOption`: "" when absent; discordgo requires a present option to hold a string. */
  function GetStringOption(i: Interaction, name: string): (s: string)
    requires FindOption(i.options, name).Some? ==> FindOption(i.options, name).value.value.Str?
    ensures FindOption(i.options, name).None? ==> s == ""
    ensures FindOption(i.options, name).Some? ==> s == FindOption(i.options, name).value.value.s
  {
    match FindOption(i.options, name)
    case None => ""
    case Some(opt) => opt.value.s
  }

  /** `GetIntOption`: 0 when absent. */
  function GetIntOption(i: Interaction, name: string): (n: int)
    requires FindOption(i.options, name).Some? ==> FindOption(i.options, name).value.value.Int?
    ensures FindOption(i.options, name).None? ==> n == 0
    ensures FindOption(i.options, name).Some? ==> n == FindOption(i.options, name).value.value.i
  {
    match FindOption(i.options, name)
    case None => 0
    case Some(opt) => opt.value.i
  }

  /** `GetBoolOption`: false when absent. */
  function GetBoolOption(i: Interaction, name: string): (b: bool)
    requires FindOption(i.options, name).Some? ==> FindOption(i.options, name).value.value.Bool?
    ensures FindOption(i.options, name).None? ==> !b
    ensures FindOption(i.options, name).Some? ==> b == FindOption(i.options, name).value.value.b
  {
    match FindOption(i.options, name)
    case None => false
    case Some(opt) => opt.value.b
  }

  /**
   * `GetUserOption`, `GetChannelOption`, `GetRoleOption`: nil when absent,
   * otherwise the object with the option's ID (its resolution through the
   * session state is not modelled).
   */
  function GetSnowflakeOption(i: Interaction, name: string): (id: Option<string>)
    requires FindOption(i.options, name).Some? ==> FindOption(i.options, name).value.value.Snowflake?
    ensures id.None? <==> FindOption(i.options, name).None?
    ensures id.Some? ==> id.value == FindOption(i.options, name).value.value.id
  {
    match FindOption(i.options, name)
    case None => None
    case Some(opt) => Some(opt.value.id)
  }

  /** `User`: the member's user inside a guild, the interaction's user otherwise. */
  function InvokingUser(i: Interaction): (u: Option<User>)
    ensures i.member.Some? ==> u == i.member.value.user
    ensures i.member.None? ==> u == i.user
  {
    if i.member.Some? then i.member.value.user else i.user
  }

  /** `Guild`: nil outside a guild, otherwise the guild the session state knows under that ID. */
  function Guild<G>(i: Interaction, known: map<string, G>): (g: Option<G>)
    ensures i.guildId == "" ==> g.None?
    ensures g.Some? <==> i.guildId != "" && i.guildId in known
    ensures g.Some? ==> g.value == known[i.guildId]
  {
    if i.guildId == "" then None
    else if i.guildId in known then Some(known[i.guildId])
    else None
  }
}
