/**
 * Chat commands: the two built-in commands and the lookup from a chat text
 * such as "!ping" to the command it names. A key matches a command when it
 * equals the lower-cased command name exactly; the chat text itself is not
 * lower-cased.
 */
module Commands {
  import opened Wrappers
  import opened Strings
  import opened TwitchApi

  datatype Command = PingCommand | TestCommand

  /** `get_name`. */
  function Name(c: Command): string {
    match c
    case PingCommand => "ping"
    case TestCommand => "test"
  }

  /** `execute`: a fixed reply; the message is not looked at. */
  function Execute(c: Command, message: TwitchMessage): string {
    match c
    case PingCommand => "Pong!"
    case TestCommand => "Hello from Rust!"
  }

  /** The registered commands, in registration order. */
  datatype CommandHandler = CommandHandler(commands: seq<Command>)

  /** `CommandHandler::new`: ping, then test. */
  function NewHandler(): CommandHandler {
    CommandHandler([PingCommand, TestCommand])
  }

  /** The first command, in order, whose lower-cased name is `key`. */
  function FindByName(commands: seq<Command>, key: string): (r: Option<Command>)
    ensures r.Some? ==> r.value in commands && ToLowerAscii(Name(r.value)) == key
    ensures r.None? <==> forall i :: 0 <= i < |commands| ==> ToLowerAscii(Name(commands[i])) != key
  {
    if commands == [] then None
    else if ToLowerAscii(Name(commands[0])) == key then Some(commands[0])
    else FindByName(commands[1..], key)
  }

  /** The search returns the earliest match: no command before it matches. */
  lemma {:induction false} FindByNameFirst(commands: seq<Command>, key: string, i: nat)
    requires i < |commands| && ToLowerAscii(Name(commands[i])) == key
    ensures exists j :: 0 <= j <= i && FindByName(commands, key) == Some(commands[j])
                        && forall p :: 0 <= p < j ==> ToLowerAscii(Name(commands[p])) != key
  {
    if ToLowerAscii(Name(commands[0])) != key {
      FindByNameFirst(commands[1..], key, i - 1);
      var j :| 0 <= j <= i - 1 && FindByName(commands[1..], key) == Some(commands[1..][j])
               && forall p :: 0 <= p < j ==> ToLowerAscii(Name(commands[1..][p])) != key;
      assert FindByName(commands, key) == Some(commands[j + 1]);
      forall p | 0 <= p < j + 1 ensures ToLowerAscii(Name(commands[p])) != key {
        if p > 0 {
          assert commands[p] == commands[1..][p - 1];
        }
      }
    } else {
      assert FindByName(commands, key) == Some(commands[0]);
    }
  }

  /**
   * The command a chat text names: only a text starting with '!' can name
   * one, and its key is the rest of the text. The '!' is one byte, so the
   * byte slice after it always lies on a character boundary.
   */
  function CommandFor(h: CommandHandler, message: string): (r: Option<Command>)
    ensures !StartsWith(message, "!") ==> r == None
    ensures StartsWith(message, "!") ==> ByteSliceFrom(message, 1) == Some(message[1..])
  {
    if StartsWith(message, "!") then
      DropFirstByte(message);
      FindByName(h.commands, message[1..])
    else None
  }

  /** `get_command`: scan the commands in order and return the first whose lower-cased name is the key. */
  method GetCommand(h: CommandHandler, message: string) returns (r: Option<Command>)
    ensures r == CommandFor(h, message)
  {
    if !StartsWith(message, "!") {
      return None;
    }
    var key := message[1..];
    var i := 0;
    while i < |h.commands|
      invariant 0 <= i <= |h.commands|
      invariant FindByName(h.commands[i..], key) == FindByName(h.commands, key)
    {
      if ToLowerAscii(Name(h.commands[i])) == key {
        return Some(h.commands[i]);
      }
      assert h.commands[i..][1..] == h.commands[i + 1..];
      i := i + 1;
    }
    return None;
  }

  /** Both names are already lower case. */
  lemma NamesAreLowerCase(c: Command)
    ensures ToLowerAscii(Name(c)) == Name(c)
  {
    var n := Name(c);
    assert forall i | 0 <= i < |n| :: !('A' <= n[i] <= 'Z');
  }

  /** With the built-in handler, exactly "!ping" and "!test" name a command. */
  lemma BuiltInCommands(message: string)
    ensures CommandFor(NewHandler(), message) == Some(PingCommand) <==> message == "!ping"
    ensures CommandFor(NewHandler(), message) == Some(TestCommand) <==> message == "!test"
    ensures CommandFor(NewHandler(), message) == None <==> message != "!ping" && message != "!test"
  {
    NamesAreLowerCase(PingCommand);
    NamesAreLowerCase(TestCommand);
    if StartsWith(message, "!") {
      assert message == "!" + message[1..];
      assert "!ping"[1..] == "ping" && "!test"[1..] == "test";
    } else {
      assert "!ping"[..1] == "!" && "!test"[..1] == "!";
    }
  }

  /** Neither an upper-case spelling nor extra text after the name is recognised. */
  lemma NearMissesAreNotCommands()
    ensures CommandFor(NewHandler(), "!PING") == None
    ensures CommandFor(NewHandler(), "!pingpong") == None
    ensures CommandFor(NewHandler(), "!ping ") == None
  {
    BuiltInCommands("!PING");
    BuiltInCommands("!pingpong");
    BuiltInCommands("!ping ");
    assert "!PING"[1] != "!ping"[1] && "!PING"[1] != "!test"[1];
    assert |"!pingpong"| != |"!ping"| && |"!pingpong"| != |"!test"|;
    assert |"!ping "| != |"!ping"| && |"!ping "| != |"!test"|;
  }

  /** The reply a chat message gets from the built-in commands, if any. */
  function Reply(message: TwitchMessage): (r: Option<string>)
    ensures r == Some("Pong!") <==> message.text == "!ping"
    ensures r == Some("Hello from Rust!") <==> message.text == "!test"
    ensures r == None <==> message.text != "!ping" && message.text != "!test"
  {
    BuiltInCommands(message.text);
    match CommandFor(NewHandler(), message.text)
    case None => None
    case Some(c) => Some(Execute(c, message))
  }
}
