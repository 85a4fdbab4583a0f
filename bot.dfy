/**
 * The command bot: connect, then read messages for ever, answering the
 * built-in commands. Its reaction to each result of `read_message` is one
 * `Step`; `RunLoop` plays the whole loop over a stream transcript. The source
 * loop never ends on its own: once the transcript is used up every read
 * returns `Ok(None)` and nothing more happens, which the model reports as
 * `Idle`.
 */
module ChatBot {
  import opened Wrappers
  import opened Strings
  import opened Transport
  import opened TwitchApi
  import opened Commands

  /** How a run ends: with the error `run` returns, with a panic, or idling on an exhausted transcript. */
  datatype RunEnd = Stopped(error: TwitchError) | Crashed | Idle

  /** What the loop does with one result of `read_message`. */
  datatype Step = Continue | Handle(message: TwitchMessage) | Sleep(ms: nat) | Exit(error: TwitchError) | Crash

  /**
   * The loop policy of `run`: `Ok(None)` continues, a message is handled, a
   * `WouldBlock` error sleeps 500 ms, any other error ends the run, and a
   * panic in `read_message` ends it too.
   */
  function BotStep(r: ReadOutcome): (s: Step)
    ensures s == Continue <==> r == Returned(Ok(None))
    ensures s.Handle? <==> r.Returned? && r.result.Ok? && r.result.value.Some?
    ensures s.Handle? ==> s.message == r.result.value.value
    ensures s.Sleep? <==> r == Returned(Err(IOError(WouldBlock)))
    ensures s.Sleep? ==> s.ms == 500
    ensures s.Exit? <==> r.Returned? && r.result.Err? && r.result.error != IOError(WouldBlock)
    ensures s.Exit? ==> s.error == r.result.error
    ensures s == Crash <==> r == Panicked
  {
    match r
    case Panicked => Crash
    case Returned(Ok(None)) => Continue
    case Returned(Ok(Some(m))) => Handle(m)
    case Returned(Err(e)) => if e == IOError(WouldBlock) then Sleep(500) else Exit(e)
  }

  /** `handle_message` on a stream: one PRIVMSG with the command's reply when the text names a command, else nothing. */
  function HandleMessageSpec(w: Wire, channel: string, handler: CommandHandler, message: TwitchMessage): (w': Wire)
    ensures w'.incoming == w.incoming
    ensures CommandFor(handler, message.text).None? ==> w' == w
    ensures CommandFor(handler, message.text).Some? ==>
              w' == WriteSpec(w, PrivmsgLine(channel, Execute(CommandFor(handler, message.text).value, message))).0
  {
    match CommandFor(handler, message.text)
    case None => w
    case Some(c) => WriteSpec(w, PrivmsgLine(channel, Execute(c, message))).0
  }

  /**
   * One round of the loop of `run` on a connected client: the new stream,
   * how the run ended if this round ended it, and the time slept.
   */
  function BotRound(w: Wire, channel: string, handler: CommandHandler): (r: (Wire, Option<RunEnd>, nat))
    ensures w.incoming != [] ==> r.0.incoming == w.incoming[1..]
    ensures r.1 != Some(Idle)
  {
    var (w1, out) := ReadMessageSpec(w);
    match BotStep(out)
    case Crash => (w1, Some(Crashed), 0)
    case Exit(e) => (w1, Some(Stopped(e)), 0)
    case Continue => (w1, None, 0)
    case Handle(m) => (HandleMessageSpec(w1, channel, handler, m), None, 0)
    case Sleep(ms) => (w1, None, ms)
  }

  /** The loop of `run` on a connected client: the final stream, how it ended, and the time slept in milliseconds. */
  function RunLoop(w: Wire, channel: string, handler: CommandHandler): (Wire, RunEnd, nat)
    decreases |w.incoming|
  {
    if w.incoming == [] then (w, Idle, 0)
    else
      var (w1, stop, ms) := BotRound(w, channel, handler);
      if stop.Some? then (w1, stop.value, 0)
      else
        var (w2, end, slept) := RunLoop(w1, channel, handler);
        (w2, end, slept + ms)
  }

  /** The lines the bot can put on the wire: the fixed PONG and the two command replies. */
  predicate BotLine(channel: string, line: string) {
    line == PongLine || line == PrivmsgLine(channel, "Pong!") || line == PrivmsgLine(channel, "Hello from Rust!")
  }

  /** `w'` keeps what `w` had written and adds only bot lines after it. */
  predicate WritesOnlyBotLines(w: Wire, w': Wire, channel: string) {
    && |w.written| <= |w'.written|
    && w'.written[..|w.written|] == w.written
    && forall i :: |w.written| <= i < |w'.written| ==> BotLine(channel, w'.written[i])
  }

  lemma WritesOnlyBotLinesTransitive(w1: Wire, w2: Wire, w3: Wire, channel: string)
    requires WritesOnlyBotLines(w1, w2, channel) && WritesOnlyBotLines(w2, w3, channel)
    ensures WritesOnlyBotLines(w1, w3, channel)
  {
    assert w3.written[..|w1.written|] == w3.written[..|w2.written|][..|w1.written|];
    forall i | |w1.written| <= i < |w3.written| ensures BotLine(channel, w3.written[i]) {
      if i < |w2.written| {
        assert w3.written[i] == w3.written[..|w2.written|][i];
      }
    }
  }

  /** Appending one bot line, or nothing, keeps to bot lines. */
  lemma AppendBotLine(w: Wire, w': Wire, channel: string, line: string)
    requires w'.written == w.written || (w'.written == w.written + [line] && BotLine(channel, line))
    ensures WritesOnlyBotLines(w, w', channel)
  {
    assert w'.written[..|w.written|] == w.written;
  }

  /** Handling a message with the built-in commands writes at most one command reply. */
  lemma HandleWritesBotLine(w: Wire, channel: string, message: TwitchMessage)
    ensures WritesOnlyBotLines(w, HandleMessageSpec(w, channel, NewHandler(), message), channel)
  {
    var w' := HandleMessageSpec(w, channel, NewHandler(), message);
    match CommandFor(NewHandler(), message.text)
    case None =>
      AppendBotLine(w, w', channel, "");
    case Some(c) =>
      AppendBotLine(w, w', channel, PrivmsgLine(channel, Execute(c, message)));
  }

  /** Everything a run writes after connecting is a PONG or a reply to "!ping" or "!test", appended to what was there. */
  lemma {:induction false} RunWritesOnlyBotLines(w: Wire, channel: string)
    ensures WritesOnlyBotLines(w, RunLoop(w, channel, NewHandler()).0, channel)
    decreases |w.incoming|
  {
    if w.incoming == [] {
      AppendBotLine(w, w, channel, "");
    } else {
      var (w1, out) := ReadMessageSpec(w);
      ReadMessageWrites(w);
      AppendBotLine(w, w1, channel, PongLine);
      match BotStep(out)
      case Crash =>
      case Exit(e) =>
      case Continue =>
        RunWritesOnlyBotLines(w1, channel);
        WritesOnlyBotLinesTransitive(w, w1, RunLoop(w1, channel, NewHandler()).0, channel);
      case Sleep(ms) =>
        RunWritesOnlyBotLines(w1, channel);
        WritesOnlyBotLinesTransitive(w, w1, RunLoop(w1, channel, NewHandler()).0, channel);
      case Handle(m) =>
        var w2 := HandleMessageSpec(w1, channel, NewHandler(), m);
        HandleWritesBotLine(w1, channel, m);
        RunWritesOnlyBotLines(w2, channel);
        WritesOnlyBotLinesTransitive(w, w1, w2, channel);
        WritesOnlyBotLinesTransitive(w, w2, RunLoop(w2, channel, NewHandler()).0, channel);
    }
  }

  /** A run that stops with an error stops with a hard read error or a parse error, never with `WouldBlock`. */
  lemma {:induction false} StopsOnlyOnHardErrors(w: Wire, channel: string, handler: CommandHandler)
    ensures var end := RunLoop(w, channel, handler).1;
            end.Stopped? ==> end.error == IOError(OtherKind) || end.error == MessageParseError
    decreases |w.incoming|
  {
    if w.incoming != [] {
      var (w1, out) := ReadMessageSpec(w);
      match BotStep(out)
      case Crash =>
      case Exit(e) =>
        assert e == out.result.error && e != IOError(WouldBlock) && e != ConnectionError;
        assert e.IOError? ==> e.kind == OtherKind;
      case Continue =>
        StopsOnlyOnHardErrors(w1, channel, handler);
      case Sleep(ms) =>
        StopsOnlyOnHardErrors(w1, channel, handler);
      case Handle(m) =>
        StopsOnlyOnHardErrors(HandleMessageSpec(w1, channel, handler, m), channel, handler);
    }
  }

  /** A transcript of `n` `WouldBlock` errors sleeps 500 ms for each, writes nothing and ends idle. */
  lemma {:induction false} WouldBlockSleeps(w: Wire, channel: string, handler: CommandHandler, n: nat)
    requires w.incoming == seq(n, _ => Failed(WouldBlock))
    ensures RunLoop(w, channel, handler) == (w.(incoming := []), Idle, 500 * n)
    decreases n
  {
    if n > 0 {
      var w1 := w.(incoming := w.incoming[1..]);
      assert w.incoming[0] == Failed(WouldBlock);
      assert w1.incoming == seq(n - 1, _ => Failed(WouldBlock));
      WouldBlockSleeps(w1, channel, handler, n - 1);
    }
  }

  /** A read error other than `WouldBlock` ends the run at once; the rest of the transcript is never read. */
  lemma HardErrorStops(w: Wire, channel: string, handler: CommandHandler)
    requires w.incoming != [] && w.incoming[0] == Failed(OtherKind)
    ensures RunLoop(w, channel, handler) == (w.(incoming := w.incoming[1..]), Stopped(IOError(OtherKind)), 0)
  {
    assert BotStep(ReadMessageSpec(w).1) == Exit(IOError(OtherKind));
  }

  /**
   * A ping whose PONG write fails with `WouldBlock` is treated like a
   * `WouldBlock` read: the run sleeps 500 ms and reads on.
   */
  lemma PongWouldBlockSleeps(w: Wire, channel: string, handler: CommandHandler, line: string)
    requires w.incoming != [] && w.incoming[0] == Data(line) && StartsWith(line, "PING")
    requires !w.isShutdown && w.outcomes != [] && w.outcomes[0] == Fails(WouldBlock)
    ensures var w1 := w.(incoming := w.incoming[1..], outcomes := w.outcomes[1..]);
            var (w2, end, slept) := RunLoop(w1, channel, handler);
            RunLoop(w, channel, handler) == (w2, end, slept + 500)
  {
    PongWriteErrorReturned(w, line, WouldBlock);
  }

  /** A ping whose PONG write fails with any other error ends the run with that error. */
  lemma PongHardErrorStops(w: Wire, channel: string, handler: CommandHandler, line: string)
    requires w.incoming != [] && w.incoming[0] == Data(line) && StartsWith(line, "PING")
    requires !w.isShutdown && w.outcomes != [] && w.outcomes[0] == Fails(OtherKind)
    ensures RunLoop(w, channel, handler)
            == (w.(incoming := w.incoming[1..], outcomes := w.outcomes[1..]), Stopped(IOError(OtherKind)), 0)
  {
    PongWriteErrorReturned(w, line, OtherKind);
  }

  /** A PRIVMSG line with fewer than four space-separated tokens ends the whole run with a parse error. */
  lemma ShortPrivmsgStops(w: Wire, channel: string, handler: CommandHandler, line: string)
    requires w.incoming != [] && w.incoming[0] == Data(line)
    requires line != "" && !StartsWith(line, "PING") && Contains(line, "PRIVMSG") && Count(line, ' ') < 3
    ensures RunLoop(w, channel, handler) == (w.(incoming := w.incoming[1..]), Stopped(MessageParseError), 0)
  {
    ParseErrorIff(line);
    assert ReadMessageSpec(w).1 == Returned(Err(MessageParseError));
  }

  /**
   * A chat line whose text is a command gets exactly one reply, sent before
   * the next line is read; the run goes on whether the send succeeds or not.
   */
  lemma CommandAnswered(w: Wire, channel: string, line: string, message: TwitchMessage, reply: string)
    requires w.incoming != [] && w.incoming[0] == Data(line)
    requires line != "" && !StartsWith(line, "PING") && Contains(line, "PRIVMSG")
    requires ParsePrivmsg(line) == Returned(Ok(Some(message)))
    requires Reply(message) == Some(reply)
    ensures RunLoop(w, channel, NewHandler())
            == RunLoop(WriteSpec(w.(incoming := w.incoming[1..]), PrivmsgLine(channel, reply)).0, channel, NewHandler())
  {
  }

  /** A chat line whose text is not a command is read and nothing is written. */
  lemma OtherTextIgnored(w: Wire, channel: string, line: string, message: TwitchMessage)
    requires w.incoming != [] && w.incoming[0] == Data(line)
    requires line != "" && !StartsWith(line, "PING") && Contains(line, "PRIVMSG")
    requires ParsePrivmsg(line) == Returned(Ok(Some(message)))
    requires Reply(message) == None
    ensures RunLoop(w, channel, NewHandler()) == RunLoop(w.(incoming := w.incoming[1..]), channel, NewHandler())
  {
  }

  class Bot {
    const api: TwitchApi
    const commandHandler: CommandHandler

    /** `Bot::new`, which cannot fail: an unconnected client and the built-in commands. */
    constructor (accessToken: string, channel: string)
      ensures fresh(api) && api.accessToken == accessToken && api.channel == channel && api.stream == null
      ensures commandHandler == NewHandler()
    {
      api := new TwitchApi(accessToken, channel);
      commandHandler := NewHandler();
    }

    /** `handle_message`: send the reply of the command the text names; a failed send is only logged. */
    method HandleMessage(message: TwitchMessage)
      modifies api.stream
      ensures api.stream != null ==>
                api.stream.State() == HandleMessageSpec(old(api.stream.State()), api.channel, commandHandler, message)
    {
      var command := GetCommand(commandHandler, message.text);
      if command.Some? {
        var response := Execute(command.value, message);
        var sent := api.SendMessage(response);
      }
    }

    /**
     * `run`: connect, returning a connect error without reading anything;
     * then follow `BotStep` for every read until the run stops, panics, or
     * the transcript is used up.
     */
    method Run(peer: Stream, reachable: bool) returns (end: RunEnd, slept: nat)
      modifies api, peer
      ensures !reachable ==> end == Stopped(ConnectionError) && slept == 0 && peer.State() == old(peer.State())
      ensures reachable ==>
        var (w, out) := WriteUntilFailure(old(peer.State()), ConnectLines(api.accessToken, api.channel));
        && (out != Done ==> end == Stopped(IOError(out.kind)) && slept == 0 && peer.State() == w)
        && (out == Done ==> (peer.State(), end, slept) == RunLoop(w, api.channel, commandHandler))
    {
      var connected := api.Connect(peer, reachable);
      if connected.Err? {
        return Stopped(connected.error), 0;
      }
      end, slept := Listen();
    }

    /** One round of the `loop` of `run`: read from the connected client and react. */
    method Round() returns (stop: Option<RunEnd>, ms: nat)
      requires api.stream != null
      modifies api.stream
      ensures (api.stream.State(), stop, ms) == BotRound(old(api.stream.State()), api.channel, commandHandler)
    {
      var r := api.ReadMessage();
      match BotStep(r) {
        case Crash =>
          return Some(Crashed), 0;
        case Exit(e) =>
          return Some(Stopped(e)), 0;
        case Continue =>
          return None, 0;
        case Handle(message) =>
          HandleMessage(message);
          return None, 0;
        case Sleep(n) =>
          return None, n;
      }
    }

    /** The `loop` of `run` on a connected client: follow `BotStep` for every read. */
    method Listen() returns (end: RunEnd, slept: nat)
      requires api.stream != null
      modifies api.stream
      ensures (api.stream.State(), end, slept) == RunLoop(old(api.stream.State()), api.channel, commandHandler)
    {
      var stream := api.stream;
      ghost var goal := RunLoop(stream.State(), api.channel, commandHandler);
      slept := 0;
      while stream.incoming != []
        invariant RunLoop(stream.State(), api.channel, commandHandler).0 == goal.0
        invariant RunLoop(stream.State(), api.channel, commandHandler).1 == goal.1
        invariant slept + RunLoop(stream.State(), api.channel, commandHandler).2 == goal.2
        decreases |stream.incoming|
      {
        var stop, ms := Round();
        if stop.Some? {
          return stop.value, slept;
        }
        slept := slept + ms;
      }
      return Idle, slept;
    }

    /** `disconnect`: the client's PART and shutdown. */
    method Disconnect() returns (r: Result<Unit, TwitchError>)
      modifies api.stream
      ensures api.stream == null ==> r == Ok(Unit)
      ensures api.stream != null ==>
        var (w, out) := WriteSpec(old(api.stream.State()), PartLine(api.channel));
        var (w', down) := ShutdownSpec(w);
        && (out != Done ==> r == Err(IOError(out.kind)) && api.stream.State() == w)
        && (out == Done ==> api.stream.State() == w')
        && (out == Done && down == Done ==> r == Ok(Unit))
        && (out == Done && down != Done ==> r == Err(IOError(down.kind)))
    {
      r := api.Disconnect();
    }
  }
}
