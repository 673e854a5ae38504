/** The older crate's line parser (`colony_protocol::commands::parser`): the first word names the
  * command and the other words are its arguments. Only `build` is known to it. */
module ProtocolParser {
  import opened Wrappers
  import opened Text
  import opened CommandTypes
  import ProtocolBuild

  /** `parse`. Only the empty string is refused up front; a non-empty line of nothing but
    * whitespace reaches the `unwrap` of the first word, which panics, so it is excluded. */
  function Parse(input: string): (r: Result<Command, CommandError>)
    requires input != [] ==> !AllWhitespace(input)
    ensures input == [] ==> r == Err(NoCommandEntered)
    ensures r.Ok? ==> r.value.Build?
    ensures input != [] ==>
      var words := SplitWhitespace(input);
      && (words[0] == "build" ==> r == (match ProtocolBuild.ParseArgs(words[1..])
                                        case Ok(a) => Ok(Build(a))
                                        case Err(e) => Err(e)))
      && (words[0] != "build" ==> r == Err(UnknownCommand(words[0])))
  {
    if input == [] then Err(NoCommandEntered)
    else
      var words := SplitWhitespace(input);
      var name := words[0];
      var args := words[1..];
      if name == "build" then
        match ProtocolBuild.ParseArgs(args)
        case Ok(a) => Ok(Build(a))
        case Err(e) => Err(e)
      else Err(UnknownCommand(name))
  }

  /** A `build` command typed with single spaces between its words parses back to its arguments. */
  lemma ParseTypedBuild(a: BuildArgs)
    requires IsToken(a.planetName) && IsToken(a.structureName)
    ensures SplitWhitespace(JoinWithSpaces(["build"] + ProtocolBuild.ArgTokens(a))) == ["build"] + ProtocolBuild.ArgTokens(a)
    ensures Parse(JoinWithSpaces(["build"] + ProtocolBuild.ArgTokens(a))) == Ok(Build(a))
  {
    var words := ["build"] + ProtocolBuild.ArgTokens(a);
    assert IsToken("build");
    assert forall i :: 0 <= i < |words| ==> IsToken(words[i]);
    SplitJoinRoundTrip(words);
    assert words[1..] == ProtocolBuild.ArgTokens(a);
  }
}
