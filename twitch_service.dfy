/**
 * The library's Twitch service: a map of connected users and one bot. Its
 * loop reads from the bot's client, asks the moderation service about every
 * message, and answers a command only when that call succeeded; the
 * moderation verdict itself is not looked at. Read errors never end the
 * loop. The moderation call is a network request, so its outcome for each
 * round of the loop is an input.
 */
module Service {
  import opened Wrappers
  import opened Strings
  import opened Transport
  import opened TwitchApi
  import opened Commands
  import opened ChatBot
  import Moderation

  type ModerationOutcome = Result<Moderation.ModerationResponse, Moderation.ModerationError>

  /**
   * The loop policy of `run`: `Ok(None)` and every error other than
   * `WouldBlock` continue (the error is only logged), a message is handled,
   * `WouldBlock` sleeps 100 ms, and a panic in `read_message` ends the loop.
   */
  function ServiceStep(r: ReadOutcome): (s: Step)
    ensures s == Continue <==> r.Returned? && (r.result == Ok(None) || (r.result.Err? && r.result.error != IOError(WouldBlock)))
    ensures s.Handle? <==> r.Returned? && r.result.Ok? && r.result.value.Some?
    ensures s.Handle? ==> s.message == r.result.value.value
    ensures s.Sleep? <==> r == Returned(Err(IOError(WouldBlock)))
    ensures s.Sleep? ==> s.ms == 100
    ensures s == Crash <==> r == Panicked
    ensures !s.Exit?
  {
    match r
    case Panicked => Crash
    case Returned(Ok(None)) => Continue
    case Returned(Ok(Some(m))) => Handle(m)
    case Returned(Err(e)) => if e == IOError(WouldBlock) then Sleep(100) else Continue
  }

  /** `handle_message` on a stream: nothing when moderation failed, else what the bot does with the message. */
  function ServiceHandleSpec(w: Wire, channel: string, handler: CommandHandler, message: TwitchMessage,
                             moderation: ModerationOutcome): Wire
  {
    if moderation.Ok? then HandleMessageSpec(w, channel, handler, message) else w
  }

  /**
   * One round of the loop of `run` on a client with a stream: the new stream,
   * whether a panic ended the loop, and the time slept in milliseconds. The
   * moderation outcome is used only when the round reads a message.
   */
  function ServiceRound(w: Wire, channel: string, handler: CommandHandler, moderation: ModerationOutcome)
    : (r: (Wire, bool, nat))
    ensures w.incoming != [] ==> r.0.incoming == w.incoming[1..]
    ensures w.incoming == [] ==> r == (w, false, 0)
  {
    var (w1, out) := ReadMessageSpec(w);
    match ServiceStep(out)
    case Crash => (w1, true, 0)
    case Continue => (w1, false, 0)
    case Handle(m) => (ServiceHandleSpec(w1, channel, handler, m, moderation), false, 0)
    case Sleep(ms) => (w1, false, ms)
  }

  /** `|moderation|` rounds, stopping early at a panic: the final stream, whether it panicked, and the total time slept. */
  function ServiceLoop(w: Wire, channel: string, handler: CommandHandler, moderation: seq<ModerationOutcome>)
    : (Wire, bool, nat)
    decreases |moderation|
  {
    if moderation == [] then (w, false, 0)
    else
      var (w1, crashed, ms) := ServiceRound(w, channel, handler, moderation[0]);
      if crashed then (w1, true, 0)
      else
        var (w2, crashed2, slept) := ServiceLoop(w1, channel, handler, moderation[1..]);
        (w2, crashed2, slept + ms)
  }

  /** A read error other than `WouldBlock` is skipped: the loop carries on with the next read. */
  lemma ReadErrorSkipped(w: Wire, channel: string, handler: CommandHandler, moderation: seq<ModerationOutcome>)
    requires moderation != [] && w.incoming != [] && w.incoming[0] == Failed(OtherKind)
    ensures ServiceLoop(w, channel, handler, moderation)
            == ServiceLoop(w.(incoming := w.incoming[1..]), channel, handler, moderation[1..])
  {
    assert ServiceStep(ReadMessageSpec(w).1) == Continue;
  }

  /** `n` rounds that each read `WouldBlock` sleep 100 ms each and write nothing. */
  lemma {:induction false} WouldBlockSleeps(w: Wire, channel: string, handler: CommandHandler,
                                            moderation: seq<ModerationOutcome>, rest: seq<ReadResult>)
    requires w.incoming == seq(|moderation|, _ => Failed(WouldBlock)) + rest
    ensures ServiceLoop(w, channel, handler, moderation) == (w.(incoming := rest), false, 100 * |moderation|)
    decreases |moderation|
  {
    if moderation != [] {
      var w1 := w.(incoming := w.incoming[1..]);
      assert w.incoming[0] == Failed(WouldBlock);
      assert w1.incoming == seq(|moderation| - 1, _ => Failed(WouldBlock)) + rest;
      assert ReadMessageSpec(w) == (w1, Returned(Err(IOError(WouldBlock))));
      WouldBlockSleeps(w1, channel, handler, moderation[1..], rest);
    } else {
      assert w.incoming == rest;
    }
  }

  /** A ping whose PONG write fails with `WouldBlock` makes the round sleep 100 ms; the loop reads on. */
  lemma PongWouldBlockSleeps(w: Wire, channel: string, handler: CommandHandler, moderation: seq<ModerationOutcome>,
                             line: string)
    requires moderation != []
    requires w.incoming != [] && w.incoming[0] == Data(line) && StartsWith(line, "PING")
    requires !w.isShutdown && w.outcomes != [] && w.outcomes[0] == Fails(WouldBlock)
    ensures var w1 := w.(incoming := w.incoming[1..], outcomes := w.outcomes[1..]);
            var (w2, crashed, slept) := ServiceLoop(w1, channel, handler, moderation[1..]);
            ServiceLoop(w, channel, handler, moderation) == (w2, crashed, slept + 100)
  {
    PongWriteErrorReturned(w, line, WouldBlock);
  }

  /** When the moderation call fails, a command message is read and nothing is sent. */
  lemma FailedModerationSilences(w: Wire, channel: string, handler: CommandHandler, moderation: seq<ModerationOutcome>,
                                 line: string, message: TwitchMessage)
    requires moderation != [] && moderation[0].Err?
    requires w.incoming != [] && w.incoming[0] == Data(line)
    requires line != "" && !StartsWith(line, "PING") && Contains(line, "PRIVMSG")
    requires ParsePrivmsg(line) == Returned(Ok(Some(message)))
    ensures ServiceLoop(w, channel, handler, moderation)
            == ServiceLoop(w.(incoming := w.incoming[1..]), channel, handler, moderation[1..])
  {
  }

  /**
   * When the moderation call succeeds, a command message is answered with one
   * send whatever the response says, flagged or not.
   */
  lemma AnsweredWhateverTheVerdict(w: Wire, channel: string, moderation: seq<ModerationOutcome>,
                                   line: string, message: TwitchMessage, reply: string)
    requires moderation != [] && moderation[0].Ok?
    requires w.incoming != [] && w.incoming[0] == Data(line)
    requires line != "" && !StartsWith(line, "PING") && Contains(line, "PRIVMSG")
    requires ParsePrivmsg(line) == Returned(Ok(Some(message)))
    requires Reply(message) == Some(reply)
    ensures ServiceLoop(w, channel, NewHandler(), moderation)
            == ServiceLoop(WriteSpec(w.(incoming := w.incoming[1..]), PrivmsgLine(channel, reply)).0,
                           channel, NewHandler(), moderation[1..])
  {
  }

  /** Two runs whose moderation calls succeed and fail in the same rounds do the same, whatever the responses hold. */
  lemma {:induction false} OnlyModerationSuccessMatters(w: Wire, channel: string, handler: CommandHandler,
                                                        m1: seq<ModerationOutcome>, m2: seq<ModerationOutcome>)
    requires |m1| == |m2| && forall i :: 0 <= i < |m1| ==> m1[i].Ok? == m2[i].Ok?
    ensures ServiceLoop(w, channel, handler, m1) == ServiceLoop(w, channel, handler, m2)
    decreases |m1|
  {
    if m1 != [] {
      assert m1[0].Ok? == m2[0].Ok?;
      var (w1, crashed, ms) := ServiceRound(w, channel, handler, m1[0]);
      assert ServiceRound(w, channel, handler, m2[0]) == (w1, crashed, ms);
      OnlyModerationSuccessMatters(w1, channel, handler, m1[1..], m2[1..]);
    }
  }

  /** A round writes nothing, or the PONG, or one command reply. */
  lemma RoundWritesAtMostOneLine(w: Wire, channel: string, handler: CommandHandler, moderation: ModerationOutcome)
    ensures |ServiceRound(w, channel, handler, moderation).0.written| <= |w.written| + 1
  {
    ReadMessageWrites(w);
  }

  /** Every round adds at most one line: the PONG or one command reply. */
  lemma {:induction false} AtMostOneLinePerRound(w: Wire, channel: string, handler: CommandHandler,
                                                 moderation: seq<ModerationOutcome>)
    ensures |ServiceLoop(w, channel, handler, moderation).0.written| <= |w.written| + |moderation|
    decreases |moderation|
  {
    if moderation != [] {
      var (w1, crashed, ms) := ServiceRound(w, channel, handler, moderation[0]);
      RoundWritesAtMostOneLine(w, channel, handler, moderation[0]);
      AtMostOneLinePerRound(w1, channel, handler, moderation[1..]);
    }
  }

  class TwitchService {
    var users: map<string, string>
    var bot: Bot?
    const botToken: string
    const botChannel: string

    /** `new`: no users and no bot. */
    constructor (botToken: string, botChannel: string)
      ensures users == map[] && bot == null
      ensures this.botToken == botToken && this.botChannel == botChannel
    {
      users := map[];
      bot := null;
      this.botToken := botToken;
      this.botChannel := botChannel;
    }

    /** `connect_user`: records the token under the channel, replacing an earlier one. */
    method ConnectUser(token: string, channel: string)
      modifies this`users
      ensures users == old(users)[channel := token]
    {
      users := users[channel := token];
    }

    /** `handle_message`: ask moderation, and only when that succeeds answer the command the text names. */
    method HandleMessage(message: TwitchMessage, moderation: ModerationOutcome)
      requires bot != null
      modifies bot.api.stream
      ensures bot.api.stream != null ==>
                bot.api.stream.State()
                == ServiceHandleSpec(old(bot.api.stream.State()), bot.api.channel, bot.commandHandler, message, moderation)
    {
      if moderation.Ok? {
        var command := GetCommand(bot.commandHandler, message.text);
        if command.Some? {
          var response := Execute(command.value, message);
          var sent := bot.api.SendMessage(response);
        }
      }
    }

    /** One round of the loop of `run`: read from the bot's client and react. */
    method Round(moderation: ModerationOutcome) returns (crashed: bool, ms: nat)
      requires bot != null
      modifies bot.api.stream
      ensures bot.api.stream == null ==> !crashed && ms == 0
      ensures bot.api.stream != null ==>
                (bot.api.stream.State(), crashed, ms)
                == ServiceRound(old(bot.api.stream.State()), bot.api.channel, bot.commandHandler, moderation)
    {
      var r := bot.api.ReadMessage();
      match ServiceStep(r) {
        case Crash =>
          return true, 0;
        case Continue =>
          return false, 0;
        case Handle(message) =>
          HandleMessage(message, moderation);
          return false, 0;
        case Sleep(n) =>
          return false, n;
      }
    }

    /** `|moderation|` rounds of the loop of `run`, reading from whatever client the bot has. */
    method Poll(moderation: seq<ModerationOutcome>) returns (crashed: bool, slept: nat)
      requires bot != null
      modifies bot.api.stream
      ensures bot.api.stream == null ==> !crashed && slept == 0
      ensures bot.api.stream != null ==>
                (bot.api.stream.State(), crashed, slept)
                == ServiceLoop(old(bot.api.stream.State()), bot.api.channel, bot.commandHandler, moderation)
    {
      var stream := bot.api.stream;
      ghost var goal := if stream != null then ServiceLoop(stream.State(), bot.api.channel, bot.commandHandler, moderation)
                        else (Wire([], [], [], false, Done), false, 0);
      slept := 0;
      var i := 0;
      while i < |moderation|
        invariant 0 <= i <= |moderation|
        invariant stream == null ==> slept == 0
        invariant stream != null ==>
                    var r := ServiceLoop(stream.State(), bot.api.channel, bot.commandHandler, moderation[i..]);
                    r.0 == goal.0 && r.1 == goal.1 && slept + r.2 == goal.2
      {
        var ms;
        crashed, ms := Round(moderation[i]);
        if crashed {
          return;
        }
        slept := slept + ms;
        assert moderation[i..][1..] == moderation[i + 1..];
        i := i + 1;
      }
      crashed := false;
    }

    /**
     * `run`: creates the bot and loops. The bot is never connected, so every
     * read returns `Ok(None)`: the loop never handles a message, never sleeps
     * and never writes.
     */
    method Run(moderation: seq<ModerationOutcome>) returns (crashed: bool, slept: nat)
      modifies this
      ensures bot != null && fresh(bot) && fresh(bot.api) && bot.api.stream == null
      ensures bot.api.accessToken == botToken && bot.api.channel == botChannel
      ensures !crashed && slept == 0
      ensures users == old(users)
    {
      bot := new Bot(botToken, botChannel);
      crashed, slept := Poll(moderation);
    }
  }
}
