/** The token cursor of the older crate's command parser (`colony_protocol::commands::parse`): a
  * list of whitespace-separated tokens and a position that only moves forward, one token at a
  * time, and never past the end. */
module ProtocolTokenParser {
  import opened Wrappers

  datatype ParseError =
    | EmptyCommand
    | UnknownCommand(name: string)
    | InvalidSyntax(command: string, reason: string)
    | MissingArgument(argument: string)

  /** `TokenParser`. */
  class TokenParser {
    const tokens: seq<string>
    var position: nat

    /** The cursor stays within the tokens. */
    predicate Valid()
      reads this
    {
      position <= |tokens|
    }

    /** `new`: the cursor starts at the first token. */
    constructor New(tokens: seq<string>)
      ensures Valid() && this.tokens == tokens && position == 0
      ensures Remaining() == tokens
    {
      this.tokens := tokens;
      position := 0;
    }

    /** `peek`: the token under the cursor, if any. */
    function Peek(): (r: Option<string>)
      reads this
      ensures r.Some? <==> position < |tokens|
      ensures r.Some? ==> r.value == tokens[position]
    {
      if position < |tokens| then Some(tokens[position]) else None
    }

    /** `has_remaining`. */
    predicate HasRemaining()
      reads this
      ensures HasRemaining() <==> Peek().Some?
    {
      position < |tokens|
    }

    /** `remaining`: the tokens not consumed yet. */
    function Remaining(): (r: seq<string>)
      requires Valid()
      reads this
      ensures tokens == tokens[..position] + r
      ensures |r| == |tokens| - position
      ensures r == [] <==> !HasRemaining()
    {
      tokens[position..]
    }

    /** `next`: the token under the cursor, which is then consumed; at the end nothing moves. */
    method Next() returns (r: Option<string>)
      requires Valid()
      modifies this
      ensures Valid()
      ensures r == old(Peek())
      ensures position == if r.Some? then old(position) + 1 else old(position)
      ensures r.Some? ==> [r.value] + Remaining() == old(Remaining())
      ensures r.None? ==> Remaining() == old(Remaining()) == []
    {
      r := Peek();
      if r.Some? {
        position := position + 1;
      }
    }

    /** `expect`: `next`, with a missing token reported as `MissingArgument(argName)`. */
    method Expect(argName: string) returns (r: Result<string, ParseError>)
      requires Valid()
      modifies this
      ensures Valid()
      ensures old(HasRemaining()) ==> r == Ok(old(tokens[position])) && position == old(position) + 1
      ensures !old(HasRemaining()) ==> r == Err(MissingArgument(argName)) && position == old(position)
    {
      var token := Next();
      r := match token
        case Some(t) => Ok(t)
        case None => Err(MissingArgument(argName));
    }
  }
}
