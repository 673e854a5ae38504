/** The newer crate's line parser (`colony_core::commands::parser`): the first word names one of
  * ten commands and the other words are handed to that command's argument parser. */
module CoreParser {
  import opened Wrappers
  import opened Text
  import opened CommandTypes
  import ProtocolBuild
  import ProtocolStatus
  import CoreBuildShip
  import CoreCancel
  import ProtocolFleetCommand
  import CoreFleetCommand

  /** The command names `parse` knows; `end` is a second spelling of `end_turn`. */
  const CommandNames := {"build", "build_ship", "cancel", "status", "map", "ships", "fleets", "fleet", "help", "end_turn", "end"}

  /** The words a user types for a command. */
  function Render(c: Command): seq<string> {
    match c
    case Build(a) => ["build"] + ProtocolBuild.ArgTokens(a)
    case BuildShipCommand(a) => ["build_ship", a.planetName, a.shipName]
    case Cancel(a) => ["cancel", a.planetName]
    case Status(t) => ["status"] + ProtocolStatus.TargetTokens(t)
    case Map => ["map"]
    case Ships => ["ships"]
    case Fleets => ["fleets"]
    case Fleet(a) => ["fleet"] + ProtocolFleetCommand.ActionTokens(a)
    case Help => ["help"]
    case EndTurnCommand => ["end_turn"]
  }

  /** Lifts an argument parser's result into a command. */
  function Wrap<A>(r: Result<A, CommandError>, make: A -> Command): Result<Command, CommandError> {
    match r
    case Ok(a) => Ok(make(a))
    case Err(e) => Err(e)
  }

  /** The dispatch of `parse` on the words of a line: the first word picks the command, the rest
    * are its arguments. */
  function ParseWords(words: seq<string>): (r: Result<Command, CommandError>)
    requires words != []
    ensures words[0] in {"map", "ships", "fleets", "help", "end_turn", "end"} ==> r.Ok?
    ensures words[0] == "end" ==> r == Ok(EndTurnCommand)
    ensures words[0] == "fleet" ==> r == Wrap(CoreFleetCommand.ParseArgs(words[1..]), a => Fleet(a))
    ensures words[0] !in CommandNames ==> r == Err(UnknownCommand(words[0]))
  {
    var name := words[0];
    var args := words[1..];
    if name == "build" then Wrap(ProtocolBuild.ParseArgs(args), a => Build(a))
    else if name == "build_ship" then Wrap(CoreBuildShip.ParseArgs(args), a => BuildShipCommand(a))
    else if name == "cancel" then Wrap(CoreCancel.ParseArgs(args), a => Cancel(a))
    else if name == "status" then Wrap(ProtocolStatus.ParseArgs(args), t => Status(t))
    else if name == "map" then Ok(Map)
    else if name == "ships" then Ok(Ships)
    else if name == "fleets" then Ok(Fleets)
    else if name == "fleet" then Wrap(CoreFleetCommand.ParseArgs(args), a => Fleet(a))
    else if name == "help" then Ok(Help)
    else if name == "end_turn" || name == "end" then Ok(EndTurnCommand)
    else Err(UnknownCommand(name))
  }

  /** A command is accepted only when the words after the first spell it out, whatever follows. */
  lemma ParseWordsSpellsCommand(words: seq<string>)
    requires words != []
    ensures ParseWords(words).Ok? ==>
      |Render(ParseWords(words).value)| <= |words|
      && words[1..|Render(ParseWords(words).value)|] == Render(ParseWords(words).value)[1..]
  {
    var name := words[0];
    var args := words[1..];
    if ParseWords(words).Ok? {
      var c := ParseWords(words).value;
      if name == "build" {
        SpelledBy(words, "build", ProtocolBuild.ArgTokens(c.build));
      } else if name == "build_ship" {
        SpelledBy(words, "build_ship", [c.buildShip.planetName, c.buildShip.shipName]);
      } else if name == "cancel" {
        SpelledBy(words, "cancel", [c.cancel.planetName]);
      } else if name == "status" {
        SpelledBy(words, "status", ProtocolStatus.TargetTokens(c.status));
      } else if name == "fleet" {
        SpelledBy(words, "fleet", ProtocolFleetCommand.ActionTokens(c.fleet));
      } else {
        SpelledBy(words, Render(c)[0], []);
      }
    }
  }

  /** The words after the first spell `tail` when the arguments begin with it. */
  lemma SpelledBy(words: seq<string>, head: string, tail: seq<string>)
    requires words != [] && |tail| <= |words| - 1 && words[1..][..|tail|] == tail
    ensures |[head] + tail| <= |words| && words[1..|[head] + tail|] == ([head] + tail)[1..]
  {
    assert ([head] + tail)[1..] == tail;
  }

  /** `parse`. Only the empty string is refused up front; a non-empty line of nothing but
    * whitespace reaches the `unwrap` of the first word, which panics, so it is excluded. */
  function Parse(input: string): (r: Result<Command, CommandError>)
    requires input != [] ==> !AllWhitespace(input)
    ensures input == [] <==> r == Err(NoCommandEntered)
    ensures input != [] ==> r == ParseWords(SplitWhitespace(input))
  {
    if input == [] then Err(NoCommandEntered) else ParseWords(SplitWhitespace(input))
  }

  /** Parsing a command's words gives that command back. */
  lemma ParseRendered(c: Command)
    requires c.Fleet? && ProtocolFleetCommand.ListsShips(c.fleet) ==> c.fleet.shipIds != []
    ensures ParseWords(Render(c)) == Ok(c)
  {
    var words := Render(c);
    var args := words[1..];
    match c
    case Build(a) => assert args == ProtocolBuild.ArgTokens(a);
    case BuildShipCommand(a) => assert args == [a.planetName, a.shipName];
    case Cancel(a) => assert args == [a.planetName];
    case Status(t) =>
      assert args == ProtocolStatus.TargetTokens(t);
      match t {
        case PlanetTarget(id) => assert args[0] == "planet" && args[1] == id;
        case _ =>
      }
    case Fleet(a) =>
      assert args == ProtocolFleetCommand.ActionTokens(a);
      CoreFleetCommand.ParseActionTokens(a);
    case _ =>
  }

  /** Every word of the command is a single token, and a fleet subcommand that takes ship ids names
    * at least one. */
  predicate WellFormed(c: Command) {
    (forall i :: 0 <= i < |Render(c)| ==> IsToken(Render(c)[i]))
    && (c.Fleet? && ProtocolFleetCommand.ListsShips(c.fleet) ==> c.fleet.shipIds != [])
  }

  /** A command typed with single spaces between its words parses back to itself. */
  lemma ParseTypedCommand(c: Command)
    requires WellFormed(c)
    ensures SplitWhitespace(JoinWithSpaces(Render(c))) == Render(c)
    ensures Parse(JoinWithSpaces(Render(c))) == Ok(c)
  {
    SplitJoinRoundTrip(Render(c));
    ParseRendered(c);
  }

  /** `end` is accepted as another spelling of `end_turn`. */
  lemma EndAlias()
    ensures SplitWhitespace("end") == ["end"]
    ensures Parse("end") == Ok(EndTurnCommand)
  {
    assert IsToken("end");
    SplitWhitespaceOfLeadingToken("end", []);
  }
}
