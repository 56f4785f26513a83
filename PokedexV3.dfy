/** Start-up of the bot: the command-line check, the Discord shard settings
    and the registration of the commands, each with the set of services the
    builder holds when the command's service manager is built. */
module PokedexV3 {
  import opened Wrappers
  import opened JavaIntegers

  // ---------------------------------------------------------------------
  // main: command-line arguments and the Discord shard settings

  const USAGE_MESSAGE := "Usage: <shard ID> <total shards>"
  const PARSE_ERROR_MESSAGE := "[Pokedex main] Error parsing command line arguments."

  /** Where the argument check leaves `main`: `System.exit(1)` after a
      message, or on to start-up with the two parsed numbers. */
  datatype ArgumentCheck =
    | Exit(message: string)
    | Continue(shardIDToManage: Int32, totalShards: Int32)

  /** `main`, lines 50-68: exactly two arguments, both `Integer.parseInt`
      numbers, the first the shard to manage and the second the shard total. */
  method CheckArguments(args: seq<string>) returns (outcome: ArgumentCheck)
    ensures outcome.Continue? <==>
      |args| == 2 && ParseInt(args[0]).Some? && ParseInt(args[1]).Some?
    ensures |args| != 2 ==> outcome == Exit(USAGE_MESSAGE)
    ensures |args| == 2 && outcome.Exit? ==> outcome.message == PARSE_ERROR_MESSAGE
    ensures outcome.Continue? ==>
      Some(outcome.shardIDToManage) == ParseInt(args[0]) && Some(outcome.totalShards) == ParseInt(args[1])
  {
    if |args| != 2 {
      return Exit(USAGE_MESSAGE);
    }
    var shardIDToManage := ParseInt(args[0]);
    if shardIDToManage.None? {
      return Exit(PARSE_ERROR_MESSAGE);
    }
    var totalShards := ParseInt(args[1]);
    if totalShards.None? {
      return Exit(PARSE_ERROR_MESSAGE);
    }
    return Continue(shardIDToManage.value, totalShards.value);
  }

  /** What the Discord client builder is given. */
  datatype DiscordSettings = DiscordSettings(shardCount: Int32, shardIndex: Int32)

  /** `createDiscordService(configService, shardID, shardCount)`: the count
      and the index are passed on under their own names. */
  function CreateDiscordService(shardID: Int32, shardCount: Int32): (d: DiscordSettings)
    ensures d.shardIndex == shardID && d.shardCount == shardCount
  {
    DiscordSettings(shardCount := shardCount, shardIndex := shardID)
  }

  datatype Startup = Exited(message: string) | Started(discord: DiscordSettings)

  /** `main` up to the Discord service, as written: the call passes
      `(totalShards, shardIDToManage)` into `(shardID, shardCount)`, so the
      shard index comes from the second argument and the count from the
      first. */
  method Start(args: seq<string>) returns (s: Startup)
    ensures s.Started? <==> |args| == 2 && ParseInt(args[0]).Some? && ParseInt(args[1]).Some?
    ensures s.Exited? ==> s.message == if |args| != 2 then USAGE_MESSAGE else PARSE_ERROR_MESSAGE
    ensures s.Started? ==>
      Some(s.discord.shardIndex) == ParseInt(args[1]) && Some(s.discord.shardCount) == ParseInt(args[0])
  {
    var check := CheckArguments(args);
    if check.Exit? {
      return Exited(check.message);
    }
    s := Started(CreateDiscordService(check.totalShards, check.shardIDToManage));
  }

  /** With the usage "0 2" (shard 0 of 2) the client is told shard index 2 of
      a total of 0, an index that is not below the count. */
  lemma SwappedShardWitness()
    ensures ParseInt("0") == Some(0) && ParseInt("2") == Some(2)
    ensures var d := CreateDiscordService(2, 0);
      d.shardIndex == 2 && d.shardCount == 0 && !(d.shardIndex < d.shardCount)
  {
    assert IntToString(0) == "0" && IntToString(2) == "2";
    ParseIntOfIntToString(0);
    ParseIntOfIntToString(2);
  }

  /** The intended wiring: the shard index is the shard to manage and the
      count is the shard total, so a shard named in range by the user is in
      range for the client. */
  function IntendedDiscordSettings(check: ArgumentCheck): (d: DiscordSettings)
    requires check.Continue?
    ensures d.shardIndex == check.shardIDToManage && d.shardCount == check.totalShards
    ensures 0 <= check.shardIDToManage < check.totalShards ==> 0 <= d.shardIndex < d.shardCount
  {
    CreateDiscordService(check.shardIDToManage, check.totalShards)
  }

  // ---------------------------------------------------------------------
  // populateCommandMap

  /** The service kinds that `populateCommandMap` asks for. */
  datatype ServiceType = COLOR | COMMAND | CONFIG | POKE_FLEX | PERK

  /** The commands registered at start-up, named after their classes. */
  datatype CommandKind =
    | AboutCommand | PatreonCommand | HelpCommand | CommandsCommand
    | ItemCommand | MoveCommand | CoverageCommand
    | AbilityCommand | DataCommand | DexCommand | LearnCommand | RandpokeCommand
    | SetCommand | ShinyCommand | StatsCommand | WeakCommand

  /** What `build()` yields: the kinds the builder held at that moment. */
  datatype ServiceManager = ServiceManager(services: set<ServiceType>)

  /** One `addCommand` call: the command and the manager it was built with. */
  datatype Registration = Registration(command: CommandKind, manager: ServiceManager)

  class ServiceManagerBuilder {
    var services: set<ServiceType>

    /** `ServiceManagerBuilder.newInstance(manager)`. */
    constructor ()
      ensures services == {}
    {
      services := {};
    }

    method AddService(t: ServiceType)
      modifies this
      ensures services == old(services) + {t}
    {
      services := services + {t};
    }

    method RemoveService(t: ServiceType)
      modifies this
      ensures services == old(services) - {t}
    {
      services := services - {t};
    }

    /** `build()`: a snapshot, unaffected by later changes to the builder. */
    function Build(): (m: ServiceManager)
      reads this
      ensures m.services == services
    {
      ServiceManager(services)
    }
  }

  class CommandService {
    var registrations: seq<Registration>

    constructor ()
      ensures registrations == []
    {
      registrations := [];
    }

    /** `addCommand`: appended in call order. */
    method AddCommand(command: CommandKind, manager: ServiceManager)
      modifies this
      ensures registrations == old(registrations) + [Registration(command, manager)]
    {
      registrations := registrations + [Registration(command, manager)];
    }
  }

  const BASE: set<ServiceType> := {COLOR}
  const WITH_COMMAND: set<ServiceType> := {COLOR, COMMAND}
  const WITH_CONFIG: set<ServiceType> := {COLOR, CONFIG}
  const WITH_POKE_FLEX: set<ServiceType> := {COLOR, POKE_FLEX}
  const WITH_PERK: set<ServiceType> := {COLOR, POKE_FLEX, PERK}

  /** Registrations of `commands`, in order, each given a snapshot of `services`. */
  function Phase(services: set<ServiceType>, commands: seq<CommandKind>): (r: seq<Registration>)
    ensures |r| == |commands|
    ensures forall i :: 0 <= i < |r| ==> r[i].command == commands[i] && r[i].manager.services == services
  {
    seq(|commands|, i requires 0 <= i < |commands| => Registration(commands[i], ServiceManager(services)))
  }

  const COLOR_PHASE: seq<CommandKind> := [AboutCommand, PatreonCommand]
  const COMMAND_PHASE: seq<CommandKind> := [HelpCommand, CommandsCommand]
  const CONFIG_PHASE: seq<CommandKind> := [AboutCommand]
  const POKE_FLEX_PHASE: seq<CommandKind> := [ItemCommand, MoveCommand, CoverageCommand]
  const PERK_PHASE: seq<CommandKind> :=
    [AbilityCommand, DataCommand, DexCommand, LearnCommand, RandpokeCommand,
     SetCommand, ShinyCommand, StatsCommand, WeakCommand]

  /** The seventeen registrations in source order, phase by phase. */
  function CommandMap(): seq<Registration> {
    Phase(BASE, COLOR_PHASE) + Phase(WITH_COMMAND, COMMAND_PHASE) + Phase(WITH_CONFIG, CONFIG_PHASE)
      + Phase(WITH_POKE_FLEX, POKE_FLEX_PHASE) + Phase(WITH_PERK, PERK_PHASE)
  }

  /** The commands of `regs`, in order. */
  function Commands(regs: seq<Registration>): (r: seq<CommandKind>)
    ensures |r| == |regs|
    ensures forall i :: 0 <= i < |r| ==> r[i] == regs[i].command
  {
    seq(|regs|, i requires 0 <= i < |regs| => regs[i].command)
  }

  lemma CommandOrder()
    ensures Commands(CommandMap()) == COLOR_PHASE + COMMAND_PHASE + CONFIG_PHASE + POKE_FLEX_PHASE + PERK_PHASE
  {
  }

  /** `AboutCommand` is registered twice, first and fifth; no other entry is for it. */
  lemma AboutRegisteredTwice()
    ensures |CommandMap()| == 17
    ensures CommandMap()[0].command == AboutCommand && CommandMap()[4].command == AboutCommand
    ensures forall i :: 0 <= i < |CommandMap()| && i != 0 && i != 4 ==> CommandMap()[i].command != AboutCommand
  {
    CommandOrder();
  }

  /** Every command kind is registered. */
  lemma EveryCommandRegistered(command: CommandKind)
    ensures command in Commands(CommandMap())
  {
    CommandOrder();
  }

  /** Apart from the second `AboutCommand`, no command is registered twice. */
  lemma OtherwiseDistinct()
    ensures forall i, j :: 0 <= i < j < |CommandMap()| && j != 4 ==> CommandMap()[i].command != CommandMap()[j].command
  {
    CommandOrder();
  }

  /** The set of services current when the `i`-th command is built. */
  function PhaseServices(i: nat): set<ServiceType> {
    if i < 2 then BASE
    else if i < 4 then WITH_COMMAND
    else if i < 5 then WITH_CONFIG
    else if i < 8 then WITH_POKE_FLEX
    else WITH_PERK
  }

  /** The builder state each registration sees: two with the colour service alone, two more with
      the command service, one with the configuration service, three with PokeFlex, nine with PokeFlex
      and Patreon perks. */
  lemma CapabilitySets()
    ensures forall i :: 0 <= i < |CommandMap()| ==>
      CommandMap()[i].manager.services == PhaseServices(i)
  {
  }

  /** The colour service is in every set that is built. */
  lemma ColorEverywhere()
    ensures forall r :: r in CommandMap() ==> COLOR in r.manager.services
  {
  }

  /** The commands given the PokeFlex service never receive the command or configuration service. */
  lemma PokeFlexExcludesCommandAndConfig()
    ensures forall r :: r in CommandMap() && POKE_FLEX in r.manager.services ==>
      COMMAND !in r.manager.services && CONFIG !in r.manager.services
  {
  }

  /** Lines 129-131: built with the colour service alone. */
  method RegisterColorCommands(commandService: CommandService, builder: ServiceManagerBuilder)
    requires builder.services == BASE
    modifies commandService
    ensures commandService.registrations == old(commandService.registrations) + Phase(BASE, COLOR_PHASE)
  {
    commandService.AddCommand(AboutCommand, builder.Build());
    commandService.AddCommand(PatreonCommand, builder.Build());
  }

  /** Lines 133-136: the command service is added. */
  method RegisterCommandServiceCommands(commandService: CommandService, builder: ServiceManagerBuilder)
    requires builder.services == BASE
    modifies commandService, builder
    ensures builder.services == WITH_COMMAND
    ensures commandService.registrations == old(commandService.registrations) + Phase(WITH_COMMAND, COMMAND_PHASE)
  {
    builder.AddService(COMMAND);
    commandService.AddCommand(HelpCommand, builder.Build());
    commandService.AddCommand(CommandsCommand, builder.Build());
  }

  /** Lines 138-141: the command service is swapped for the configuration service. */
  method RegisterConfigCommands(commandService: CommandService, builder: ServiceManagerBuilder)
    requires builder.services == WITH_COMMAND
    modifies commandService, builder
    ensures builder.services == WITH_CONFIG
    ensures commandService.registrations == old(commandService.registrations) + Phase(WITH_CONFIG, CONFIG_PHASE)
  {
    builder.RemoveService(COMMAND);
    builder.AddService(CONFIG);
    commandService.AddCommand(AboutCommand, builder.Build());
  }

  /** Lines 143-148: the configuration service is swapped for PokeFlex. */
  method RegisterPokeFlexCommands(commandService: CommandService, builder: ServiceManagerBuilder)
    requires builder.services == WITH_CONFIG
    modifies commandService, builder
    ensures builder.services == WITH_POKE_FLEX
    ensures commandService.registrations == old(commandService.registrations) + Phase(WITH_POKE_FLEX, POKE_FLEX_PHASE)
  {
    builder.RemoveService(CONFIG);
    builder.AddService(POKE_FLEX);
    commandService.AddCommand(ItemCommand, builder.Build());
    commandService.AddCommand(MoveCommand, builder.Build());
    commandService.AddCommand(CoverageCommand, builder.Build());
  }

  /** Lines 150-160: the Patreon perk service is added. */
  method RegisterPerkCommands(commandService: CommandService, builder: ServiceManagerBuilder)
    requires builder.services == WITH_POKE_FLEX
    modifies commandService, builder
    ensures builder.services == WITH_PERK
    ensures commandService.registrations == old(commandService.registrations) + Phase(WITH_PERK, PERK_PHASE)
  {
    builder.AddService(PERK);
    commandService.AddCommand(AbilityCommand, builder.Build());
    commandService.AddCommand(DataCommand, builder.Build());
    commandService.AddCommand(DexCommand, builder.Build());
    commandService.AddCommand(LearnCommand, builder.Build());
    commandService.AddCommand(RandpokeCommand, builder.Build());
    commandService.AddCommand(SetCommand, builder.Build());
    commandService.AddCommand(ShinyCommand, builder.Build());
    commandService.AddCommand(StatsCommand, builder.Build());
    commandService.AddCommand(WeakCommand, builder.Build());
  }

  /** `populateCommandMap`: one builder changed between builds, so each
      command gets the set current at its own `build()`. The second builder
      is built up and never used. */
  method PopulateCommandMap(commandService: CommandService)
    modifies commandService
    ensures commandService.registrations == old(commandService.registrations) + CommandMap()
  {
    var commandServiceBuilder := new ServiceManagerBuilder();
    commandServiceBuilder.AddService(COLOR);
    var formatterServiceBuilder := new ServiceManagerBuilder();
    formatterServiceBuilder.AddService(COLOR);
    RegisterColorCommands(commandService, commandServiceBuilder);
    RegisterCommandServiceCommands(commandService, commandServiceBuilder);
    RegisterConfigCommands(commandService, commandServiceBuilder);
    RegisterPokeFlexCommands(commandService, commandServiceBuilder);
    RegisterPerkCommands(commandService, commandServiceBuilder);
  }
}
