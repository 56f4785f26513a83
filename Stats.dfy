/** The `stats` command: checks the parsed input, fetches a Pokémon's base
    stats and lays them out, either as a header line with an embed (Discord)
    or as seven plain lines (Twitch). */
module Stats {
  import opened Wrappers
  import opened JavaIntegers
  import opened JavaStrings
  import TextFormatter
  import opened Responses

  /** The argument kinds a command can declare; `stats` uses only this one. */
  datatype ArgumentCategory = POKEMON

  /** One resolved argument: the text the user typed and its database key. */
  datatype Argument = Argument(raw: string, db: string)

  /** The validator's verdict on one invocation. */
  datatype Input = Input(valid: bool, error: int, args: seq<Argument>)

  /** A PokeFlex Pokémon: its name, its base stats in the order the service
      lists them, and its type names, primary type first. */
  datatype Pokemon = Pokemon(name: string, baseStats: seq<Int32>, types: seq<string>)

  /** A database row for the Twitch path; `None` is the null species of a
      Pokémon the database does not know. */
  datatype SimplePokemon = SimplePokemon(species: Option<string>, stats: seq<Int32>)

  /** Stands for the PokeFlex HTTP factory; only its identity matters here. */
  datatype PokeFlexFactory = PokeFlexFactory(baseUrl: string)

  // The first message is written as two literals so that the verifier can
  // read its characters; a single literal this long is not indexed.
  const EXACTLY_ONE_MESSAGE := "You must specify exactly one Pokemon " + "as input for this command."
  const NOT_RECOGNIZED_SUFFIX := "\" is not a recognized Pokemon"
  const CODE_101_MESSAGE := "A technical error occured (code 101)"
  const CODE_1001_MESSAGE := "A technical error occured (code 1001). Please report this (twitter.com/sirskaro))"

  /** Width of the left column of the embed's rows (`%-12s`, `%-12d`). */
  const COLUMN_WIDTH: nat := 12

  /** The labels of the Twitch lines, for stat indices 1 to 6. */
  const TWITCH_LABELS := ["HP:", "Atk:", "Def:", "SpAtk:", "SpDef:", "Speed:"]

  /** The stat names of the three embed rows. */
  const STAT_NAMES := [("HP", "Attack"), ("Defense", "Sp. Attack"), ("Sp. Defense", "Speed")]

  // ---------------------------------------------------------------------
  // What the callers must supply for the Java code not to throw

  /** An input rejected as "not recognized" carries the argument it names
      (`input.getArg(0)`). */
  predicate GuardDefined(input: Input) {
    !input.valid && input.error == 2 ==> |input.args| > 0
  }

  /** The six base stats and the primary type that `formatEmbed` reads. */
  predicate Complete(p: Pokemon) {
    |p.baseStats| >= 6 && |p.types| >= 1
  }

  /** A known species comes with the stats at indices 1 to 6. */
  predicate HasStats(sp: SimplePokemon) {
    sp.species.Some? ==> |sp.stats| >= 7
  }

  predicate DiscordDataComplete(input: Input, fetch: seq<Argument> -> Option<Pokemon>) {
    input.valid && fetch(input.args).Some? ==> Complete(fetch(input.args).value)
  }

  predicate TwitchDataComplete(input: Input, lookup: string -> SimplePokemon) {
    input.valid ==> |input.args| > 0 && HasStats(lookup(input.args[0].db))
  }

  // ---------------------------------------------------------------------
  // The reply, as a value

  /** The one line `inputIsValid` adds for a rejected input. */
  function GuardMessage(input: Input): string
    requires !input.valid && GuardDefined(input)
  {
    if input.error == 1 then EXACTLY_ONE_MESSAGE
    else if input.error == 2 then "\"" + input.args[0].raw + NOT_RECOGNIZED_SUFFIX
    else CODE_101_MESSAGE
  }

  /** Two columns: `left` left-justified to the column width, then `right`. */
  function Columns(left: string, right: string): string {
    PadRight(left, COLUMN_WIDTH) + right
  }

  /** The names rows, `String.format("%-12s%s", ...)`. */
  function NameRows(): (rows: seq<string>)
    ensures |rows| == 3
    ensures forall k :: 0 <= k < 3 ==>
      |rows[k]| >= COLUMN_WIDTH
      && TrimTrailing(rows[k][..COLUMN_WIDTH], ' ') == STAT_NAMES[k].0
      && rows[k][COLUMN_WIDTH..] == STAT_NAMES[k].1
  {
    forall k | 0 <= k < 3
      ensures TrimTrailing(PadRight(STAT_NAMES[k].0, COLUMN_WIDTH), ' ') == STAT_NAMES[k].0
    {
      TrimPadRight(STAT_NAMES[k].0, COLUMN_WIDTH);
    }
    seq(3, k requires 0 <= k < 3 => Columns(STAT_NAMES[k].0, STAT_NAMES[k].1))
  }

  /** A row of two columns shows `left` and `right`: the left number is read
      back from the padded column, the right one from the rest. */
  predicate ShowsNumbers(row: string, left: Int32, right: Int32) {
    |row| >= COLUMN_WIDTH
    && ParseInt(TrimTrailing(row[..COLUMN_WIDTH], ' ')) == Some(left)
    && ParseInt(row[COLUMN_WIDTH..]) == Some(right)
  }

  /** `String.format("%-12d%d", left, right)` shows both numbers. */
  lemma NumberRowReadsBack(left: Int32, right: Int32)
    ensures ShowsNumbers(Columns(IntToString(left), IntToString(right)), left, right)
  {
    var l := IntToString(left);
    IntToStringLength(left);
    var padded := PadRight(l, COLUMN_WIDTH);
    var row := padded + IntToString(right);
    assert row[..COLUMN_WIDTH] == padded;
    assert row[COLUMN_WIDTH..] == IntToString(right);
    assert l[|l| - 1] != ' ' by {
      if left < 0 {
        assert l[|l| - 1] == NatToString(-(left as int))[|l| - 2];
      }
    }
    TrimPadRight(l, COLUMN_WIDTH);
    ParseIntOfIntToString(left);
    ParseIntOfIntToString(right);
  }

  /** The values rows, fed from the extracted array in reverse: the rows
      show `stats[5]`/`stats[4]`, `stats[3]`/`stats[2]` and
      `stats[1]`/`stats[0]`, so a service listing Speed first and HP last yields HP/Attack,
      Defense/Sp. Attack, Sp. Defense/Speed. */
  function NumberRows(stats: seq<Int32>): (rows: seq<string>)
    requires |stats| == 6
    ensures |rows| == 3
    ensures ShowsNumbers(rows[0], stats[5], stats[4])
    ensures ShowsNumbers(rows[1], stats[3], stats[2])
    ensures ShowsNumbers(rows[2], stats[1], stats[0])
  {
    var first := Columns(IntToString(stats[5]), IntToString(stats[4]));
    var second := Columns(IntToString(stats[3]), IntToString(stats[2]));
    var third := Columns(IntToString(stats[1]), IntToString(stats[0]));
    NumberRowReadsBack(stats[5], stats[4]);
    NumberRowReadsBack(stats[3], stats[2]);
    NumberRowReadsBack(stats[1], stats[0]);
    [first, second, third]
  }

  /** One underlined names row above its values row. */
  function Block(names: string, values: string): string {
    "__`" + names + "`__\n`" + values + "`"
  }

  /** The embed description: the three blocks separated by blank lines. */
  function Description(stats: seq<Int32>): string
    requires |stats| == 6
  {
    var names := NameRows();
    var values := NumberRows(stats);
    Block(names[0], values[0]) + "\n\n" + Block(names[1], values[1]) + "\n\n" + Block(names[2], values[2])
  }

  /** `formatEmbed`: the layout of the first six base stats, coloured by the
      primary type. */
  function EmbedOf(p: Pokemon): Embed
    requires Complete(p)
  {
    Embed(Description(p.baseStats[..6]), p.types[0])
  }

  /** The Discord header: the formatted name, bold and underlined. */
  function DiscordHeader(name: string): string {
    "**__" + TextFormatter.FlexFormToProper(name + "__**")
  }

  /** The reply of `discordReply`. */
  function DiscordReplyContent(input: Input, fetch: seq<Argument> -> Option<Pokemon>): ReplyContent
    requires GuardDefined(input) && DiscordDataComplete(input, fetch)
  {
    if !input.valid then ReplyContent([GuardMessage(input)], None)
    else match fetch(input.args)
      case None => ReplyContent([CODE_1001_MESSAGE], None)
      case Some(p) => ReplyContent([DiscordHeader(p.name)], Some(EmbedOf(p)))
  }

  /** The seven lines of a successful Twitch reply. */
  function TwitchLines(species: string, stats: seq<Int32>): seq<string>
    requires |stats| >= 7
  {
    ["*" + species + "*",
     "HP:" + IntToString(stats[1]),
     "Atk:" + IntToString(stats[2]),
     "Def:" + IntToString(stats[3]),
     "SpAtk:" + IntToString(stats[4]),
     "SpDef:" + IntToString(stats[5]),
     "Speed:" + IntToString(stats[6])]
  }

  /** The reply of `twitchReply`. */
  function TwitchReplyContent(input: Input, lookup: string -> SimplePokemon): ReplyContent
    requires GuardDefined(input) && TwitchDataComplete(input, lookup)
  {
    if !input.valid then ReplyContent([GuardMessage(input)], None)
    else
      var poke := lookup(input.args[0].db);
      match poke.species
      case None => ReplyContent([CODE_1001_MESSAGE], None)
      case Some(species) => ReplyContent(TwitchLines(species, poke.stats), None)
  }

  // ---------------------------------------------------------------------
  // The command object and its singleton

  class StatsCommand {
    const commandName: string := "stats"
    const argCats: seq<ArgumentCategory> := [POKEMON]
    const expectedArgRange: seq<int> := [1, 1]
    const factory: PokeFlexFactory

    constructor (pff: PokeFlexFactory)
      ensures factory == pff
    {
      factory := pff;
    }

    function GetExpectedArgNum(): seq<int> { expectedArgRange }
    function GetCommandName(): string { commandName }
    function GetArgumentCats(): seq<ArgumentCategory> { argCats }
    function GetArguments(): string { "[pokemon name]" }

    /** `inputIsValid`: true exactly for a valid input, which leaves the
        reply alone; otherwise one line chosen by the error code. */
    method InputIsValid(reply: Response, input: Input) returns (ok: bool)
      requires GuardDefined(input)
      modifies reply
      ensures ok == input.valid
      ensures reply.lines == old(reply.lines) + (if ok then [] else [GuardMessage(input)])
      ensures reply.embed == old(reply.embed)
    {
      if !input.valid {
        if input.error == 1 {
          reply.AddToReply(EXACTLY_ONE_MESSAGE);
        } else if input.error == 2 {
          reply.AddToReply("\"" + input.args[0].raw + NOT_RECOGNIZED_SUFFIX);
        } else {
          reply.AddToReply(CODE_101_MESSAGE);
        }
        return false;
      }
      return true;
    }

    /** `extractStats`: the first six base stats, in list order. */
    method ExtractStats(p: Pokemon) returns (stats: array<Int32>)
      requires |p.baseStats| >= 6
      ensures fresh(stats)
      ensures stats[..] == p.baseStats[..6]
    {
      stats := new Int32[6];
      for i := 0 to 6
        invariant forall k :: 0 <= k < i ==> stats[k] == p.baseStats[k]
      {
        stats[i] := p.baseStats[i];
      }
    }

    /** `formatEmbed`. */
    method FormatEmbed(p: Pokemon) returns (e: Embed)
      requires Complete(p)
      ensures e == EmbedOf(p)
    {
      var stats := ExtractStats(p);
      e := Embed(Description(stats[..]), p.types[0]);
    }

    /** `discordReply`: the guard, then the PokeFlex lookup through this
        command's factory (`fetch(factory)` stands for
        `factory.createFlexObject(Endpoint.POKEMON, ...)`). */
    method DiscordReply(input: Input, fetch: PokeFlexFactory -> seq<Argument> -> Option<Pokemon>)
        returns (reply: Response)
      requires GuardDefined(input) && DiscordDataComplete(input, fetch(factory))
      ensures fresh(reply)
      ensures reply.Content() == DiscordReplyContent(input, fetch(factory))
    {
      reply := new Response();
      var ok := InputIsValid(reply, input);
      if !ok {
        return;
      }
      var flexObj := fetch(factory)(input.args);
      if flexObj.None? {
        reply.AddToReply(CODE_1001_MESSAGE);
        return;
      }
      var pokemon := flexObj.value;
      reply.AddToReply("**__" + TextFormatter.FlexFormToProper(pokemon.name + "__**"));
      var e := FormatEmbed(pokemon);
      reply.SetEmbededReply(e);
    }

    /** `twitchReply`: the guard, then the database lookup (`lookup` stands
        for `extractSimplePokeFromDB`). */
    method TwitchReply(input: Input, lookup: string -> SimplePokemon) returns (reply: Response)
      requires GuardDefined(input) && TwitchDataComplete(input, lookup)
      ensures fresh(reply)
      ensures reply.Content() == TwitchReplyContent(input, lookup)
    {
      reply := new Response();
      var ok := InputIsValid(reply, input);
      if !ok {
        return;
      }
      var poke := lookup(input.args[0].db);
      if poke.species.None? {
        reply.AddToReply(CODE_1001_MESSAGE);
        return;
      }
      var stats := poke.stats;
      ghost var expected := TwitchLines(poke.species.value, stats);
      reply.AddToReply("*" + poke.species.value + "*");
      reply.AddToReply("HP:" + IntToString(stats[1]));
      reply.AddToReply("Atk:" + IntToString(stats[2]));
      reply.AddToReply("Def:" + IntToString(stats[3]));
      reply.AddToReply("SpAtk:" + IntToString(stats[4]));
      reply.AddToReply("SpDef:" + IntToString(stats[5]));
      reply.AddToReply("Speed:" + IntToString(stats[6]));
      assert reply.lines == expected;
    }
  }

  /** The static `instance` field of `StatsCommand`, null until the first
      `getInstance`. */
  class StatsCommandHolder {
    var instance: StatsCommand?

    constructor ()
      ensures instance == null
    {
      instance := null;
    }

    /** `getInstance`: constructs on the first call only; later calls return
        that instance and ignore their factory. */
    method GetInstance(pff: PokeFlexFactory) returns (c: StatsCommand)
      modifies this
      ensures old(instance) != null ==> c == old(instance) && instance == old(instance)
      ensures old(instance) == null ==> fresh(c) && c.factory == pff && instance == c
    {
      if instance != null {
        return instance;
      }
      c := new StatsCommand(pff);
      instance := c;
    }

    /** Two calls in a row yield one object, built with the factory of the
        first call ever made. */
    method GetInstanceTwice(first: PokeFlexFactory, second: PokeFlexFactory) returns (a: StatsCommand, b: StatsCommand)
      modifies this
      ensures a == b == instance
      ensures old(instance) == null ==> a.factory == first
      ensures old(instance) != null ==> a == old(instance)
    {
      a := GetInstance(first);
      b := GetInstance(second);
    }
  }

  // ---------------------------------------------------------------------
  // Properties

  /** The name, argument categories, argument range and argument hint are
      fixed, and the range admits exactly as many arguments as there are
      categories. */
  lemma MetadataIsFixed(c: StatsCommand)
    ensures c.GetCommandName() == "stats"
    ensures c.GetArgumentCats() == [POKEMON]
    ensures c.GetExpectedArgNum() == [1, 1]
    ensures c.GetArguments() == "[pokemon name]"
    ensures |c.GetArgumentCats()| == c.GetExpectedArgNum()[0] == c.GetExpectedArgNum()[1]
  {
  }

  /** The guard's line tells the three kinds of rejection apart, and the
      "not recognized" line quotes exactly what the user typed. */
  lemma GuardMessageIdentifiesError(input: Input)
    requires !input.valid && GuardDefined(input)
    ensures var m := GuardMessage(input);
      && (m == EXACTLY_ONE_MESSAGE <==> input.error == 1)
      && (|m| > 0 && m[0] == '"' <==> input.error == 2)
      && (m == CODE_101_MESSAGE <==> input.error != 1 && input.error != 2)
      && (input.error == 2 ==> m[1..|m| - |NOT_RECOGNIZED_SUFFIX|] == input.args[0].raw)
  {
    var m := GuardMessage(input);
    assert EXACTLY_ONE_MESSAGE[0] == 'Y' && CODE_101_MESSAGE[0] == 'A';
    if input.error == 2 {
      assert m[0] == '"';
      assert m != EXACTLY_ONE_MESSAGE && m != CODE_101_MESSAGE;
    }
  }

  /** Both render targets run the same guard first: a rejected input yields
      the guard's single line and no embed on either. */
  lemma RejectedInputSameOnBothTargets(input: Input, fetch: seq<Argument> -> Option<Pokemon>,
                                       lookup: string -> SimplePokemon)
    requires !input.valid && GuardDefined(input)
    ensures DiscordReplyContent(input, fetch) == ReplyContent([GuardMessage(input)], None)
    ensures TwitchReplyContent(input, lookup) == DiscordReplyContent(input, fetch)
  {
  }

  /** A rejected input consults no data source: the reply is the same
      whatever the sources would return. */
  lemma RejectedInputFetchesNothing(input: Input, f1: seq<Argument> -> Option<Pokemon>,
                                    f2: seq<Argument> -> Option<Pokemon>,
                                    l1: string -> SimplePokemon, l2: string -> SimplePokemon)
    requires !input.valid && GuardDefined(input)
    ensures DiscordReplyContent(input, f1) == DiscordReplyContent(input, f2)
    ensures TwitchReplyContent(input, l1) == TwitchReplyContent(input, l2)
  {
  }

  /** Missing data after a valid input gives the technical-error line alone. */
  lemma MissingDataReportsCode1001(input: Input, fetch: seq<Argument> -> Option<Pokemon>,
                                   lookup: string -> SimplePokemon)
    requires input.valid && |input.args| > 0
    ensures fetch(input.args).None? ==>
      DiscordReplyContent(input, fetch) == ReplyContent([CODE_1001_MESSAGE], None)
    ensures HasStats(lookup(input.args[0].db)) && lookup(input.args[0].db).species.None? ==>
      TwitchReplyContent(input, lookup) == ReplyContent([CODE_1001_MESSAGE], None)
  {
  }

  /** A successful Discord reply: one line, the name formatted and wrapped
      in bold-underline markup, and the embed coloured by the primary type
      whose rows show the stats from the end of the list backwards. */
  lemma DiscordSuccess(input: Input, fetch: seq<Argument> -> Option<Pokemon>)
    requires input.valid && fetch(input.args).Some? && Complete(fetch(input.args).value)
    ensures var p := fetch(input.args).value;
      var r := DiscordReplyContent(input, fetch);
      && r.lines == ["**__" + TextFormatter.FlexFormToProper(p.name) + "__**"]
      && r.embed == Some(Embed(Description(p.baseStats[..6]), p.types[0]))
      && ShowsNumbers(NumberRows(p.baseStats[..6])[0], p.baseStats[5], p.baseStats[4])
      && ShowsNumbers(NumberRows(p.baseStats[..6])[1], p.baseStats[3], p.baseStats[2])
      && ShowsNumbers(NumberRows(p.baseStats[..6])[2], p.baseStats[1], p.baseStats[0])
  {
    var p := fetch(input.args).value;
    TextFormatter.FlexFormToProperSuffix(p.name, "__**");
    assert "**__" + (TextFormatter.FlexFormToProper(p.name) + "__**")
        == "**__" + TextFormatter.FlexFormToProper(p.name) + "__**";
  }

  /** A Twitch stat line: the label, then the stat it shows. */
  predicate ShowsStat(line: string, tag: string, value: Int32) {
    |line| >= |tag| && line[..|tag|] == tag && ParseInt(line[|tag|..]) == Some(value)
  }

  lemma LabelledStatReadsBack(tag: string, value: Int32)
    ensures ShowsStat(tag + IntToString(value), tag, value)
  {
    var line := tag + IntToString(value);
    assert line[..|tag|] == tag;
    assert line[|tag|..] == IntToString(value);
    ParseIntOfIntToString(value);
  }

  /** The seven Twitch lines: the species in italics, then each label with
      the stat at indices 1 to 6. */
  lemma TwitchLinesShowStats(species: string, stats: seq<Int32>)
    requires |stats| >= 7
    ensures var lines := TwitchLines(species, stats);
      && |lines| == 7
      && lines[0] == "*" + species + "*"
      && forall k :: 1 <= k <= 6 ==> ShowsStat(lines[k], TWITCH_LABELS[k - 1], stats[k])
  {
    var lines := TwitchLines(species, stats);
    assert forall k :: 1 <= k <= 6 ==> lines[k] == TWITCH_LABELS[k - 1] + IntToString(stats[k]);
    LabelledLinesShowStats(lines, TWITCH_LABELS, stats);
  }

  /** Lines that each put a label before a stat show those stats. */
  lemma LabelledLinesShowStats(lines: seq<string>, labels: seq<string>, stats: seq<Int32>)
    requires |lines| == 7 && |stats| >= 7 && |labels| == 6
    requires forall k :: 1 <= k <= 6 ==> lines[k] == labels[k - 1] + IntToString(stats[k])
    ensures forall k :: 1 <= k <= 6 ==> ShowsStat(lines[k], labels[k - 1], stats[k])
  {
    forall k | 1 <= k <= 6
      ensures ShowsStat(lines[k], labels[k - 1], stats[k])
    {
      LabelledStatReadsBack(labels[k - 1], stats[k]);
    }
  }

  /** A successful Twitch reply: exactly seven lines, the species in
      italics, then each label followed by the stat at indices 1 to 6. */
  lemma TwitchSuccess(input: Input, lookup: string -> SimplePokemon)
    requires input.valid && |input.args| > 0
    requires var poke := lookup(input.args[0].db); poke.species.Some? && |poke.stats| >= 7
    ensures var poke := lookup(input.args[0].db);
      var r := TwitchReplyContent(input, lookup);
      && r.embed == None
      && |r.lines| == 7
      && r.lines[0] == "*" + poke.species.value + "*"
      && forall k :: 1 <= k <= 6 ==> ShowsStat(r.lines[k], TWITCH_LABELS[k - 1], poke.stats[k])
  {
    var poke := lookup(input.args[0].db);
    assert TwitchReplyContent(input, lookup) == ReplyContent(TwitchLines(poke.species.value, poke.stats), None);
    TwitchLinesShowStats(poke.species.value, poke.stats);
  }
}
