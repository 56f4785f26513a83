# Pokedex bot: the `stats` command, text formatting and start-up wiring

A Dafny model of three parts of the Pokedex chat bot:

- `StatsCommand` checks an invocation's parsed input. It then fetches a Pokémon's base stats and lays them out in one of two ways:
  - for Discord, a bold, underlined name line plus an embed holding three two-column rows;
  - for Twitch, seven plain lines.
- `TextFormatter` turns PokeFlex resource names such as `mr-mime` or `generation-iv` into display text, and splits URLs at slashes.
- `PokedexV3.main` checks its two command-line numbers and hands them to the Discord client builder. `populateCommandMap` registers the commands; a single service-manager builder grows and shrinks between the registrations, so each command gets the set of services current at its own `build()`.

Modules:

| module | models |
|---|---|
| `Wrappers` | `Option` |
| `JavaIntegers` | Java `int`, `Integer.parseInt` and `Integer.toString` |
| `JavaStrings` | The Java string operations the core uses: `replace`, `split` with a one-character separator, ASCII `toUpperCase`, `%-12s` padding |
| `WordUtils` | `capitalize` from Apache Commons Lang 2 |
| `TextFormatter` | `TextFormatter.java` |
| `Responses` | The reply a command accumulates |
| `Stats` | `StatsCommand.java` |
| `PokedexV3` | `main`'s argument check, the shard wiring, and `populateCommandMap` |

Outside calls become parameters:
- the PokeFlex lookup is a function `fetch` that, given the command's factory, maps the argument list to an optional `Pokemon`;
- the database lookup is a function `lookup` from a database key to a `SimplePokemon`.

What the Java code needs in order not to throw is stated as a `requires`:
- `input.getArg(0)` on a "not recognized" input;
- six base stats and a primary type for the embed;
- seven stats once the database knows the species.

## Model

| member | source | states |
|---|---|---|
| JavaIntegers.ParseInt | src/skaro/pokedex/core/PokedexV3.java:61-62 | A parsed value is non-negative unless the text starts with `-`, non-positive when it does, and the text starts with a sign or a digit. |
| JavaIntegers.ParseIntMeaning | src/skaro/pokedex/core/PokedexV3.java:61-62 | `Integer.parseInt` succeeds exactly when the text is an optional `-` or `+` followed by at least one digit, and the signed value fits an `int`. The value is that signed decimal value. |
| JavaIntegers.IntToString | src/skaro/pokedex/data_processor/commands/StatsCommand.java:112-114 | `Integer.toString` writes a leading `-` exactly for negative values, and only digits otherwise. |
| JavaIntegers.ParseIntOfIntToString | src/skaro/pokedex/data_processor/commands/StatsCommand.java:112-114 | Every `int` printed in decimal parses back to itself. |
| JavaIntegers.IntToStringLength | src/skaro/pokedex/data_processor/commands/StatsCommand.java:112-114 | The decimal text of an `int` has at most 11 characters, so it fits the 12-wide column. |
| JavaStrings.Split | src/skaro/pokedex/data_processor/TextFormatter.java:16 | No piece of `split` contains the separator. |
| JavaStrings.JoinSplit | src/skaro/pokedex/data_processor/TextFormatter.java:22 | Joining the pieces of `split` with the separator gives back the text minus its trailing separators. |
| JavaStrings.TrimTrailingConcat | src/skaro/pokedex/data_processor/TextFormatter.java:16 | Trailing separators come off only at the end: once the tail of a text keeps something, everything before it is kept. |
| JavaStrings.SplitHasTwo | src/skaro/pokedex/data_processor/TextFormatter.java:16-17 | `split` yields at least two pieces exactly when a separator is left after the trailing ones are removed. |
| JavaStrings.PiecesOfConcat | src/skaro/pokedex/data_processor/TextFormatter.java:16 | Splitting `x + sep + y` gives the pieces of `x` followed by the pieces of `y`. |
| JavaStrings.PadRight | src/skaro/pokedex/data_processor/commands/StatsCommand.java:109-114 | `%-12s`/`%-12d` keep the text as a prefix and fill with spaces up to the width. |
| JavaStrings.TrimPadRight | src/skaro/pokedex/data_processor/commands/StatsCommand.java:109-111 | Removing the padding recovers any text that does not itself end in a space. |
| JavaStrings.UpperCase | src/skaro/pokedex/data_processor/TextFormatter.java:17 | `toUpperCase` maps every character and keeps the length. |
| JavaStrings.ReplaceChar | src/skaro/pokedex/data_processor/TextFormatter.java:10 | `replace` maps each occurrence of the old character to the new one and keeps every other character. |
| WordUtils.Capitalize | src/skaro/pokedex/data_processor/TextFormatter.java:11 | Keeps the length. A word-initial character (first, or after whitespace) is upper-cased; every other character is kept. |
| WordUtils.CapitalizeIdempotent | src/skaro/pokedex/data_processor/TextFormatter.java:11 | Capitalizing twice is capitalizing once. |
| WordUtils.CapitalizeAppend | src/skaro/pokedex/data_processor/TextFormatter.java:11 | A suffix of characters that are not whitespace and that upper-casing leaves unchanged (no lower-case ASCII letters) passes through unchanged. |
| TextFormatter.FlexFormToProper | src/skaro/pokedex/data_processor/TextFormatter.java:8-12 | Keeps the length and leaves no dash. Each character is the input's, with a dash turned into a space. It is upper-cased exactly when it is first or follows whitespace or a dash. |
| TextFormatter.FlexFormToProperIdempotent | src/skaro/pokedex/data_processor/TextFormatter.java:10-11 | Formatting a formatted name changes nothing. |
| TextFormatter.FlexFormToProperSuffix | src/skaro/pokedex/data_processor/TextFormatter.java:10-11 | Markup appended to the name (`__**`) may be formatted with it or added afterwards. |
| TextFormatter.FormatGeneration | src/skaro/pokedex/data_processor/TextFormatter.java:14-18 | The result is defined exactly when `words[1]` exists, i.e. a dash remains once the trailing dashes are removed. Otherwise Java throws. |
| TextFormatter.FormatGenerationOfPair | src/skaro/pokedex/data_processor/TextFormatter.java:16-17 | `a-b` becomes `capitalize(a) + " " + upper(b)`. |
| TextFormatter.FormatGenerationIgnoresRest | src/skaro/pokedex/data_processor/TextFormatter.java:16-17 | Every piece after the second is dropped. This holds also when the second piece is empty, as long as a later piece is not (`a--c` reads `A `). |
| TextFormatter.GetURLComponents | src/skaro/pokedex/data_processor/TextFormatter.java:20-23 | The empty URL gives one empty component. No component holds `/`. Joining the components with `/` gives back the URL without its trailing slashes. |
| TextFormatter.GetURLComponentsLastNonEmpty | src/skaro/pokedex/data_processor/TextFormatter.java:22 | The last component is empty only for the empty URL. |
| Responses.Response.constructor | src/skaro/pokedex/data_processor/commands/StatsCommand.java:77 | `new Response()`, here and at line 137, starts with no lines and no embed. |
| Responses.Response.AddToReply | src/skaro/pokedex/data_processor/commands/StatsCommand.java:157-164 | `addToReply` appends exactly the given line after the earlier ones and keeps the embed. The same holds at lines 61, 64, 67, 89, 97 and 150. |
| Responses.Response.SetEmbededReply | src/skaro/pokedex/data_processor/commands/StatsCommand.java:98 | `setEmbededReply` makes the given embed the reply's embed and keeps the lines. |
| Stats.NameRows | src/skaro/pokedex/data_processor/commands/StatsCommand.java:109-111 | Each names row shows its left stat name in the 12-wide column and its right stat name after it. |
| Stats.NumberRowReadsBack | src/skaro/pokedex/data_processor/commands/StatsCommand.java:112-114 | A `%-12d%d` row shows both numbers: each reads back from its column. |
| Stats.NumberRows | src/skaro/pokedex/data_processor/commands/StatsCommand.java:112-114 | The rows show `stats[5]`/`stats[4]`, `stats[3]`/`stats[2]` and `stats[1]`/`stats[0]`. |
| Stats.StatsCommand.constructor | src/skaro/pokedex/data_processor/commands/StatsCommand.java:27-34 | The command keeps the factory it was given. |
| Stats.StatsCommand.InputIsValid | src/skaro/pokedex/data_processor/commands/StatsCommand.java:54-73 | Returns true exactly for a valid input, which leaves the reply untouched. Otherwise it appends exactly the one line chosen by the error code. |
| Stats.StatsCommand.ExtractStats | src/skaro/pokedex/data_processor/commands/StatsCommand.java:125-133 | A new six-element array holding the first six base stats in list order. |
| Stats.StatsCommand.FormatEmbed | src/skaro/pokedex/data_processor/commands/StatsCommand.java:103-123 | The embed's description is the three blocks of names and values. Its colour comes from the primary type. |
| Stats.StatsCommand.DiscordReply | src/skaro/pokedex/data_processor/commands/StatsCommand.java:75-101 | A new reply whose content is the guard's line, the code-1001 line, or the name line with the embed. |
| Stats.StatsCommand.TwitchReply | src/skaro/pokedex/data_processor/commands/StatsCommand.java:135-167 | A new reply whose content is the guard's line, the code-1001 line, or the seven stat lines. |
| Stats.StatsCommandHolder.constructor | src/skaro/pokedex/data_processor/commands/StatsCommand.java:21 | The static `instance` starts out null. |
| Stats.StatsCommandHolder.GetInstance | src/skaro/pokedex/data_processor/commands/StatsCommand.java:36-43 | Constructs only while no instance exists. Later calls return that same instance and ignore their factory. |
| Stats.StatsCommandHolder.GetInstanceTwice | src/skaro/pokedex/data_processor/commands/StatsCommand.java:36-43 | Two calls return one object, built with the factory of the first call ever made. |
| Stats.MetadataIsFixed | src/skaro/pokedex/data_processor/commands/StatsCommand.java:29-52 | Name `stats`, categories `[POKEMON]`, range `[1,1]`, argument hint `[pokemon name]`. The range admits as many arguments as there are categories. |
| Stats.GuardMessageIdentifiesError | src/skaro/pokedex/data_processor/commands/StatsCommand.java:58-68 | Code 1, code 2 and every other code give three distinguishable lines. The code-2 line quotes exactly what the user typed. |
| Stats.RejectedInputSameOnBothTargets | src/skaro/pokedex/data_processor/commands/StatsCommand.java:80-81 | On a rejected input both targets reply with the guard's single line and no embed. |
| Stats.RejectedInputFetchesNothing | src/skaro/pokedex/data_processor/commands/StatsCommand.java:140-141 | The reply to a rejected input does not depend on either data source. |
| Stats.MissingDataReportsCode1001 | src/skaro/pokedex/data_processor/commands/StatsCommand.java:87-91 | Missing data (an empty `Optional`, or a null species) gives the code-1001 line alone, with no embed. |
| Stats.DiscordSuccess | src/skaro/pokedex/data_processor/commands/StatsCommand.java:94-100 | One line `**__` + formatted name + `__**`, plus the embed. Its rows show the stats from the end of the list backwards. |
| Stats.LabelledStatReadsBack | src/skaro/pokedex/data_processor/commands/StatsCommand.java:159-164 | A label followed by an `int` shows the label and reads back that `int`. |
| Stats.LabelledLinesShowStats | src/skaro/pokedex/data_processor/commands/StatsCommand.java:159-164 | Six lines that each put a label before a stat each show that label and read back that stat. |
| Stats.TwitchLinesShowStats | src/skaro/pokedex/data_processor/commands/StatsCommand.java:157-164 | The seven Twitch lines: the species in italics, then `HP:` … `Speed:`, each followed by the stat at index 1 … 6. |
| Stats.TwitchSuccess | src/skaro/pokedex/data_processor/commands/StatsCommand.java:154-164 | Exactly seven lines and no embed. The species comes first in italics, then `HP:` … `Speed:`, each followed by the stat at index 1 … 6. |
| PokedexV3.CheckArguments | src/skaro/pokedex/core/PokedexV3.java:50-68 | Continues exactly when there are two arguments and both parse, with the two parsed values. Otherwise it exits with the usage message or the parse-error message. |
| PokedexV3.CreateDiscordService | src/skaro/pokedex/core/PokedexV3.java:99-108 | The client builder is given the shard count and the shard index under their parameter names. |
| PokedexV3.Start | src/skaro/pokedex/core/PokedexV3.java:79 | As written: the shard index comes from the second argument and the count from the first. |
| PokedexV3.SwappedShardWitness | src/skaro/pokedex/core/PokedexV3.java:79 | The arguments `0 2` give shard index 2 out of 0 shards. |
| PokedexV3.IntendedDiscordSettings | src/skaro/pokedex/core/PokedexV3.java:79-104 | Corrected wiring: the index is the managed shard and the count is the total. A shard in range for the user is in range for the client. |
| PokedexV3.ServiceManagerBuilder.constructor | src/skaro/pokedex/core/PokedexV3.java:124-127 | `newInstance` starts with no services. |
| PokedexV3.ServiceManagerBuilder.AddService | src/skaro/pokedex/core/PokedexV3.java:124-151 | `addService` adds one kind to the set and keeps the others. |
| PokedexV3.ServiceManagerBuilder.RemoveService | src/skaro/pokedex/core/PokedexV3.java:139-144 | `removeService` removes one kind from the set and keeps the others. |
| PokedexV3.ServiceManagerBuilder.Build | src/skaro/pokedex/core/PokedexV3.java:130 | `build()` is a snapshot of the builder's current set. |
| PokedexV3.CommandService.constructor | src/skaro/pokedex/core/PokedexV3.java:75 | `new CommandService(pokedexThreadPool)` starts with no registrations. |
| PokedexV3.CommandService.AddCommand | src/skaro/pokedex/core/PokedexV3.java:130 | Appends one registration. |
| PokedexV3.RegisterColorCommands | src/skaro/pokedex/core/PokedexV3.java:129-131 | About and Patreon are registered with `{COLOR}`. |
| PokedexV3.RegisterCommandServiceCommands | src/skaro/pokedex/core/PokedexV3.java:133-136 | Help and Commands are registered with `{COLOR, COMMAND}`. |
| PokedexV3.RegisterConfigCommands | src/skaro/pokedex/core/PokedexV3.java:138-141 | The second About is registered with `{COLOR, CONFIG}`. |
| PokedexV3.RegisterPokeFlexCommands | src/skaro/pokedex/core/PokedexV3.java:143-148 | Item, Move and Coverage are registered with `{COLOR, POKE_FLEX}`. |
| PokedexV3.RegisterPerkCommands | src/skaro/pokedex/core/PokedexV3.java:150-160 | The nine remaining commands are registered with `{COLOR, POKE_FLEX, PERK}`. |
| PokedexV3.PopulateCommandMap | src/skaro/pokedex/core/PokedexV3.java:122-161 | Appends exactly `CommandMap()`, in source order, to the service's registrations. |
| PokedexV3.CapabilitySets | src/skaro/pokedex/core/PokedexV3.java:124-160 | The set each registration receives is fixed by its position: two with `{COLOR}`, two with `{COLOR, COMMAND}`, one with `{COLOR, CONFIG}`, three with `{COLOR, POKE_FLEX}`, nine with `{COLOR, POKE_FLEX, PERK}`. |
| PokedexV3.ColorEverywhere | src/skaro/pokedex/core/PokedexV3.java:124-160 | COLOR is in every set that is built. |
| PokedexV3.PokeFlexExcludesCommandAndConfig | src/skaro/pokedex/core/PokedexV3.java:138-151 | No set holding POKE_FLEX holds COMMAND or CONFIG. |
| PokedexV3.AboutRegisteredTwice | src/skaro/pokedex/core/PokedexV3.java:130-141 | There are seventeen registrations. About is the first and the fifth, and no other. |
| PokedexV3.OtherwiseDistinct | src/skaro/pokedex/core/PokedexV3.java:130-160 | Apart from the second About, no command is registered twice. |
| PokedexV3.EveryCommandRegistered | src/skaro/pokedex/core/PokedexV3.java:130-160 | Every command kind is registered. |
| PokedexV3.CommandOrder | src/skaro/pokedex/core/PokedexV3.java:130-160 | The commands registered, in order, are the five phases one after another. |

## Left out

- `Response.java` is not part of this model. `Responses.Response` assumes that `addToReply` appends a line and that `setEmbededReply` replaces the embed.
- `EmbedBuilder` and `EmbedObject` internals, `setLenient`, and `ColorTracker.getColorForType` belong to a library or an unseen table. The embed records the type name whose colour is used, not the colour.
- The PokeFlex HTTP factory, `DatabaseInterface` and `Input`/`argsAsList` are external. Their results enter as the parameters `fetch` and `lookup` and as the `Input` value.
- `String.intern()` has no effect on the values and is dropped.
- Case mapping is ASCII only. `toUpperCase` and `WordUtils.capitalize` ignore non-ASCII letters and title-case forms.
- A default locale with root case mapping and Latin digits is assumed. In a Turkish locale `toUpperCase` at TextFormatter.java:17 turns `iv` into `İV`. `String.format` at StatsCommand.java:112-114 writes its digits with the format locale's zero digit, whereas `JavaIntegers.IntToString` always writes ASCII digits.
- JavaStrings.IsWhitespace: U+180E (Mongolian vowel separator) is left out. Whether `Character.isWhitespace` accepts it depends on the Java version's Unicode tables.
- `JavaIntegers.ParseInt`: accepts only ASCII digits, because `Character.digit` also accepts other Unicode digits.
- Stats.StatsCommand.GetArguments, GetCommandName, GetArgumentCats and GetExpectedArgNum are plain getters. `Stats.MetadataIsFixed` states the value of each of the four. Java returns the static arrays themselves, which callers could alter; that aliasing is not modelled.
- The static fields of `StatsCommand` become constants of the object plus `StatsCommandHolder.instance`. The private constructor runs only from `getInstance`, so the statics never change once they are set.
- `main` after the Discord wiring is not modelled, including the `getService(ServiceType.DISCORD)` lookup at line 89: the configuration loading, the thread pool, the Patreon and PokeFlex clients, `configure()`, the login and the event subscription. These are I/O, concurrency and network. `System.out.println` followed by `System.exit(1)` becomes the `Exit` outcome carrying the message.
- `ServiceManager`, `PokedexManager` and `CommandService` internals are unseen. The model keeps only add/remove/snapshot on the builder and append on the command service. It does not claim that `build()` fails for a service that was never configured, although CONFIG is requested while no configuration service is passed to `withService`. It does not claim that a duplicate command name is rejected.
- The second builder, `formatterServiceBuilder`, is built up and never used. The model does the same.
- `populateCommandMap` registers About twice, so it makes seventeen `addCommand` calls.
- Each registration records only the command kind and its service manager. The second constructor argument is dropped: the response formatter given to most commands at lines 146-160. The two-argument `StatsCommand` constructor called at line 159 is not in the `StatsCommand.java` modelled here, which has only the one-argument `getInstance` path.
- PokedexV3.PopulateCommandMap: the body is split into one method per commented block of the source (`RegisterColorCommands` … `RegisterPerkCommands`). This keeps each proof small; the calls and their order are unchanged.

## Findings

| source | as written | input that shows it | evidently intended | confidence | as-written member | corrected member |
|---|---|---|---|---|---|---|
| src/skaro/pokedex/core/PokedexV3.java:79 | `createDiscordService(configurationService, totalShards, shardIDToManage)` passes the total into `shardID` and the managed shard into `shardCount` | arguments `0 2` (shard 0 of 2): the client is told shard index 2 of 0 shards | `createDiscordService(configurationService, shardIDToManage, totalShards)`, as the usage line `<shard ID> <total shards>` says | not executed; high | PokedexV3.Start, PokedexV3.SwappedShardWitness | PokedexV3.IntendedDiscordSettings |
