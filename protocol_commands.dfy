/** The older crate's structured command parser (`colony_protocol::commands`, with its `planet` and
  * `help` subcommand parsers): the first token names the command, and subcommands pull their
  * arguments from the shared token cursor. Tokens after a complete command are ignored. */
module ProtocolCommands {
  import opened Wrappers
  import opened Text
  import opened ProtocolTokenParser

  datatype HelpCommand = General

  datatype PlanetCommand =
    | Build(planetId: string, structureType: string)
    | View(planetId: string)

  datatype Command =
    | Help(help: HelpCommand)
    | EndTurn
    | Planet(planet: PlanetCommand)

  /** The tokens that spell a planet subcommand, as a user types it. */
  function RenderPlanet(c: PlanetCommand): seq<string> {
    match c
    case Build(planetId, structureType) => ["build", planetId, structureType]
    case View(planetId) => ["view", planetId]
  }

  /** The tokens that spell a command. */
  function Render(c: Command): seq<string> {
    match c
    case Help(_) => ["help"]
    case EndTurn => ["end-turn"]
    case Planet(p) => ["planet"] + RenderPlanet(p)
  }

  /** `PlanetCommand::parse` over the tokens after `planet`: the subcommand, then its arguments
    * in order, each reported by name when it is missing. */
  function ParsePlanet(tokens: seq<string>): (r: Result<PlanetCommand, ParseError>)
    ensures tokens == [] ==> r == Err(MissingArgument("planet subcommand"))
    ensures r.Ok? ==> |RenderPlanet(r.value)| <= |tokens| && tokens[..|RenderPlanet(r.value)|] == RenderPlanet(r.value)
    ensures tokens != [] && tokens[0] == "build" ==>
      (r.Ok? <==> |tokens| >= 3) && (|tokens| == 1 ==> r == Err(MissingArgument("planet_id")))
      && (|tokens| == 2 ==> r == Err(MissingArgument("structure_type")))
    ensures tokens != [] && tokens[0] == "view" ==>
      (r.Ok? <==> |tokens| >= 2) && (|tokens| == 1 ==> r == Err(MissingArgument("planet_id")))
    ensures tokens != [] && tokens[0] != "build" && tokens[0] != "view" ==>
      r == Err(UnknownCommand("planet " + tokens[0]))
  {
    if tokens == [] then Err(MissingArgument("planet subcommand"))
    else if tokens[0] == "build" then
      if |tokens| < 2 then Err(MissingArgument("planet_id"))
      else if |tokens| < 3 then Err(MissingArgument("structure_type"))
      else Ok(Build(tokens[1], tokens[2]))
    else if tokens[0] == "view" then
      if |tokens| < 2 then Err(MissingArgument("planet_id"))
      else Ok(View(tokens[1]))
    else Err(UnknownCommand("planet " + tokens[0]))
  }

  /** `Command::parse` over the tokens of a line. */
  function ParseTokens(tokens: seq<string>): (r: Result<Command, ParseError>)
    ensures r == Err(EmptyCommand) <==> tokens == []
    ensures r.Ok? ==> |Render(r.value)| <= |tokens| && tokens[1..|Render(r.value)|] == Render(r.value)[1..]
    ensures tokens != [] && tokens[0] == "planet" ==>
      r == (match ParsePlanet(tokens[1..]) case Ok(p) => Ok(Planet(p)) case Err(e) => Err(e))
    ensures tokens != [] && tokens[0] !in {"help", "end-turn", "endturn", "planet"} ==> r == Err(UnknownCommand(tokens[0]))
  {
    if tokens == [] then Err(EmptyCommand)
    else if tokens[0] == "help" then Ok(Help(General))
    else if tokens[0] == "end-turn" || tokens[0] == "endturn" then Ok(EndTurn)
    else if tokens[0] == "planet" then
      match ParsePlanet(tokens[1..])
      case Ok(p) => Ok(Planet(p))
      case Err(e) => Err(e)
    else Err(UnknownCommand(tokens[0]))
  }

  /** `Command::parse` of a line of text. */
  function ParseInput(input: string): Result<Command, ParseError> {
    ParseTokens(SplitWhitespace(input))
  }

  /** Every string a command carries is a single token. */
  predicate WellFormed(c: Command) {
    match c
    case Help(_) => true
    case EndTurn => true
    case Planet(Build(planetId, structureType)) => IsToken(planetId) && IsToken(structureType)
    case Planet(View(planetId)) => IsToken(planetId)
  }

  /** Parsing a command's tokens gives that command back, whatever tokens follow it. */
  lemma ParseRendered(c: Command, rest: seq<string>)
    ensures ParseTokens(Render(c) + rest) == Ok(c)
  {
    var tokens := Render(c) + rest;
    match c
    case Help(h) =>
      assert h == General && tokens[0] == "help";
    case EndTurn =>
      assert tokens[0] == "end-turn";
    case Planet(p) =>
      assert tokens[0] == "planet";
      assert tokens[1..] == RenderPlanet(p) + rest;
      match p
      case Build(planetId, structureType) =>
        assert tokens[1..][0] == "build" && tokens[1..][1] == planetId && tokens[1..][2] == structureType;
      case View(planetId) =>
        assert tokens[1..][0] == "view" && tokens[1..][1] == planetId;
  }

  /** A command typed with single spaces between its words parses back to itself. */
  lemma ParseTypedCommand(c: Command)
    requires WellFormed(c)
    ensures ParseInput(JoinWithSpaces(Render(c))) == Ok(c)
  {
    var tokens := Render(c);
    assert forall i :: 0 <= i < |tokens| ==> IsToken(tokens[i]);
    SplitJoinRoundTrip(tokens);
    ParseRendered(c, []);
    assert tokens + [] == tokens;
  }

  /** `endturn` is accepted as another spelling of `end-turn`. */
  lemma EndTurnAlias()
    ensures ParseInput("endturn") == Ok(EndTurn)
  {
    assert IsToken("endturn");
    SplitWhitespaceOfLeadingToken("endturn", []);
  }

  /** `PlanetCommand::parse`, reading from the shared cursor. */
  method ParsePlanetCommand(parser: TokenParser) returns (r: Result<PlanetCommand, ParseError>)
    requires parser.Valid()
    modifies parser
    ensures parser.Valid()
    ensures r == ParsePlanet(old(parser.Remaining()))
    ensures r.Ok? ==> parser.position == old(parser.position) + |RenderPlanet(r.value)|
  {
    ghost var rest := parser.Remaining();
    var subcommand := parser.Expect("planet subcommand");
    if subcommand.Err? {
      return Err(subcommand.error);
    }
    if subcommand.value == "build" {
      var planetId := parser.Expect("planet_id");
      if planetId.Err? {
        return Err(planetId.error);
      }
      var structureType := parser.Expect("structure_type");
      if structureType.Err? {
        return Err(structureType.error);
      }
      assert rest[1] == planetId.value && rest[2] == structureType.value;
      r := Ok(Build(planetId.value, structureType.value));
    } else if subcommand.value == "view" {
      var planetId := parser.Expect("planet_id");
      if planetId.Err? {
        return Err(planetId.error);
      }
      assert rest[1] == planetId.value;
      r := Ok(View(planetId.value));
    } else {
      r := Err(UnknownCommand("planet " + subcommand.value));
    }
  }

  /** `Command::parse`. */
  method Parse(input: string) returns (r: Result<Command, ParseError>)
    ensures r == ParseInput(input)
  {
    var tokens := SplitWhitespace(input);
    if tokens == [] {
      return Err(EmptyCommand);
    }
    var parser := new TokenParser.New(tokens);
    var mainCommand := parser.Next();
    var name := mainCommand.value;
    assert parser.Remaining() == tokens[1..];
    if name == "help" {
      // `HelpCommand::parse` takes no arguments.
      r := Ok(Help(General));
    } else if name == "end-turn" || name == "endturn" {
      r := Ok(EndTurn);
    } else if name == "planet" {
      var planet := ParsePlanetCommand(parser);
      r := match planet
        case Ok(p) => Ok(Planet(p))
        case Err(e) => Err(e);
    } else {
      r := Err(UnknownCommand(name));
    }
  }
}
