/**
 * The line-oriented Twitch IRC client used by the bot: connect and log in,
 * read one line at a time (answering PING, parsing PRIVMSG by spaces), send
 * chat messages, and leave the channel.
 *
 * The reader and the writer are clones of one socket, so both are the same
 * `Stream` here; each transcript entry is what one `read_line` call returns.
 */
module TwitchApi {
  import opened Wrappers
  import opened Strings
  import opened Transport

  datatype TwitchMessage = TwitchMessage(sender: string, text: string)

  /** `TwitchError`; an I/O error keeps only its kind. */
  datatype TwitchError = IOError(kind: ErrorKind) | ConnectionError | MessageParseError

  /** What a call of `read_message` does: return a result, or panic on a bad byte slice. */
  datatype ReadOutcome = Returned(result: Result<Option<TwitchMessage>, TwitchError>) | Panicked

  /** The fixed keepalive reply; it does not echo the ping. */
  const PongLine: string := "PONG :tmi.twitch.tv\r\n"

  /** The line `send_message` writes. */
  function PrivmsgLine(channel: string, message: string): string {
    "PRIVMSG #" + channel + " :" + message + "\r\n"
  }

  function PartLine(channel: string): string {
    "PART #" + channel + "\r\n"
  }

  /** The login lines `connect` writes, in order; the nickname is the literal "bot_username". */
  function ConnectLines(accessToken: string, channel: string): seq<string> {
    ["PASS oauth:" + accessToken + "\r\n", "NICK bot_username\r\n", "JOIN #" + channel + "\r\n"]
  }

  /**
   * The PRIVMSG rule of `read_message`: split the line on single spaces; with
   * fewer than four tokens it is a parse error. Otherwise the sender is the
   * first token past its first byte, up to the first '!', and the text is the
   * tokens from the fourth on, re-joined with spaces, past its first byte,
   * trimmed. A byte slice inside a character or past the end panics.
   */
  function ParsePrivmsg(line: string): (r: ReadOutcome)
    ensures r.Returned? ==> r.result.Err? || r.result.value.Some?
    ensures r.Returned? && r.result.Err? ==> r.result.error == MessageParseError
    ensures r.Returned? && r.result.Ok? ==>
              var m := r.result.value.value;
              && '!' !in m.sender
              && (|m.text| > 0 ==> !IsWhitespace(m.text[0]) && !IsWhitespace(m.text[|m.text| - 1]))
  {
    var parts := Split(line, " ");
    if |parts| >= 4 then
      match ByteSliceFrom(parts[0], 1)
      case None => Panicked
      case Some(head) =>
        match ByteSliceFrom(Join(parts[3..], " "), 1)
        case None => Panicked
        case Some(rest) =>
          var sender := Split(head, "!")[0];
          SplitFirstPiece(head, '!');
          Returned(Ok(Some(TwitchMessage(sender, Trim(rest)))))
    else Returned(Err(MessageParseError))
  }

  /** A parse error happens exactly when the line holds fewer than three spaces, empty tokens counted. */
  lemma ParseErrorIff(line: string)
    ensures ParsePrivmsg(line) == Returned(Err(MessageParseError)) <==> Count(line, ' ') < 3
  {
    SplitCount(line, ' ');
  }

  /**
   * With four or more tokens, parsing panics exactly when the first token or
   * the re-joined remainder is empty or starts with a non-ASCII character.
   */
  lemma ParsePanicsIff(line: string)
    requires |Split(line, " ")| >= 4
    ensures var parts := Split(line, " ");
            var rest := Join(parts[3..], " ");
            ParsePrivmsg(line) == Panicked <==> (|parts[0]| == 0 || !IsAscii(parts[0][0]) || |rest| == 0 || !IsAscii(rest[0]))
  {
    var parts := Split(line, " ");
    DropFirstByte(parts[0]);
    DropFirstByte(Join(parts[3..], " "));
  }

  /** The space-separated tokens of a relayed chat line: source, command, target, then the pieces of the trailing part. */
  lemma RelayedTokens(source: string, target: string, trailing: string)
    requires ' ' !in source && ' ' !in target
    ensures Split(source + " PRIVMSG " + target + " " + trailing, " ") == [source, "PRIVMSG", target] + Split(trailing, " ")
  {
    RelayedLineShape(source, target, trailing);
    var rest := target + [' '] + trailing;
    SplitAfterFirst(source, ' ', "PRIVMSG" + [' '] + rest);
    SplitAfterFirst("PRIVMSG", ' ', rest);
    SplitAfterFirst(target, ' ', trailing);
  }

  /** The relayed chat line, regrouped around its first three spaces. */
  lemma RelayedLineShape(source: string, target: string, trailing: string)
    ensures source + " PRIVMSG " + target + " " + trailing
            == source + [' '] + ("PRIVMSG" + [' '] + (target + [' '] + trailing))
  {
  }

  /** A PRIVMSG line built from its source, target and trailing part parses to the sender and text those parts determine. */
  lemma PrivmsgOfPieces(source: string, target: string, trailing: string)
    requires ' ' !in source && ' ' !in target
    requires |source| > 0 && IsAscii(source[0]) && |trailing| > 0 && IsAscii(trailing[0])
    ensures ParsePrivmsg(source + " PRIVMSG " + target + " " + trailing)
            == Returned(Ok(Some(TwitchMessage(Split(source[1..], "!")[0], Trim(trailing[1..])))))
  {
    RelayedTokens(source, target, trailing);
    var parts := Split(source + " PRIVMSG " + target + " " + trailing, " ");
    assert parts[0] == source && parts[3..] == Split(trailing, " ");
    DropFirstByte(source);
    DropFirstByte(trailing);
  }

  /**
   * A chat line relayed by the server, ":nick!user@host PRIVMSG #channel :text"
   * with CRLF, parses to the nickname and the text, when the nickname holds
   * no '!', the prefix and channel hold no space, and the text has no
   * surrounding whitespace.
   */
  lemma RelayedPrivmsgParses(nick: string, userHost: string, channel: string, text: string)
    requires '!' !in nick && ' ' !in nick && ' ' !in userHost && ' ' !in channel
    requires |text| > 0 ==> !IsWhitespace(text[0]) && !IsWhitespace(text[|text| - 1])
    ensures ParsePrivmsg(":" + nick + "!" + userHost + " PRIVMSG " + ("#" + channel) + " " + (":" + text + "\r\n"))
            == Returned(Ok(Some(TwitchMessage(nick, text))))
  {
    var source := ":" + nick + "!" + userHost;
    var target := "#" + channel;
    var trailing := ":" + text + "\r\n";
    assert ' ' !in source && ' ' !in target;
    PrivmsgOfPieces(source, target, trailing);
    RelayedSender(nick, userHost);
    RelayedText(text);
  }

  lemma RelayedSender(nick: string, userHost: string)
    requires '!' !in nick
    ensures (":" + nick + "!" + userHost)[1..] == nick + "!" + userHost
    ensures Split(nick + "!" + userHost, "!")[0] == nick
  {
    SplitAfterFirst(nick, '!', userHost);
  }

  lemma RelayedText(text: string)
    requires |text| > 0 ==> !IsWhitespace(text[0]) && !IsWhitespace(text[|text| - 1])
    ensures (":" + text + "\r\n")[1..] == text + "\r\n"
    ensures Trim(text + "\r\n") == text
  {
    TrimTrailingWhitespace(text, "\r\n");
  }

  /** One `read_message` on a connected client, as a function of the stream state. */
  function ReadMessageSpec(w: Wire): (result: (Wire, ReadOutcome))
    ensures w.incoming != [] ==> result.0.incoming == w.incoming[1..]
    ensures w.incoming == [] ==> result.0 == w
    ensures result.1.Returned? && result.1.result.Err? ==> result.1.result.error != ConnectionError
  {
    if w.incoming == [] then (w, Returned(Ok(None)))
    else
      var w1 := w.(incoming := w.incoming[1..]);
      match w.incoming[0]
      case Failed(kind) => (w1, Returned(Err(IOError(kind))))
      case Data(line) =>
        if line == "" then (w1, Returned(Ok(None)))
        else if StartsWith(line, "PING") then
          var (w2, out) := WriteSpec(w1, PongLine);
          (w2, if out == Done then Returned(Ok(None)) else Returned(Err(IOError(out.kind))))
        else if Contains(line, "PRIVMSG") then (w1, ParsePrivmsg(line))
        else (w1, Returned(Ok(None)))
  }

  /** A read writes nothing but the fixed PONG line, and that only for a ping line, whose result is then `Ok(None)`. */
  lemma ReadMessageWrites(w: Wire)
    ensures var (w', r) := ReadMessageSpec(w);
            || w'.written == w.written
            || (&& w.incoming != [] && w.incoming[0].Data? && StartsWith(w.incoming[0].text, "PING")
                && w'.written == w.written + [PongLine] && r == Returned(Ok(None)))
  {
  }

  /** Every ping line, whatever follows "PING", is answered with the same fixed PONG line when the write goes through. */
  lemma PingAnsweredWithFixedPong(w: Wire, line: string)
    requires w.incoming != [] && w.incoming[0] == Data(line) && StartsWith(line, "PING")
    requires !w.isShutdown && (w.outcomes == [] || w.outcomes[0] == Done)
    ensures ReadMessageSpec(w).0.written == w.written + [PongLine]
    ensures ReadMessageSpec(w).1 == Returned(Ok(None))
  {
  }

  /**
   * A PONG write that fails makes the read fail with that write's error, so
   * a `WouldBlock` on the non-blocking socket reaches the caller as
   * `WouldBlock`; nothing is written.
   */
  lemma PongWriteErrorReturned(w: Wire, line: string, kind: ErrorKind)
    requires w.incoming != [] && w.incoming[0] == Data(line) && StartsWith(line, "PING")
    requires !w.isShutdown && w.outcomes != [] && w.outcomes[0] == Fails(kind)
    ensures ReadMessageSpec(w) == (w.(incoming := w.incoming[1..], outcomes := w.outcomes[1..]), Returned(Err(IOError(kind))))
  {
    assert line != "";
  }

  class TwitchApi {
    const accessToken: string
    const channel: string
    /** The socket, once `connect` has succeeded; it serves as reader too. */
    var stream: Stream?

    constructor (accessToken: string, channel: string)
      ensures this.accessToken == accessToken && this.channel == channel && stream == null
    {
      this.accessToken := accessToken;
      this.channel := channel;
      stream := null;
    }

    /**
     * `connect`: an unreachable server is a `ConnectionError`; otherwise the
     * login lines are written in order up to the first failure, and the
     * client keeps the stream only when all of them went out.
     */
    method Connect(peer: Stream, reachable: bool) returns (r: Result<Unit, TwitchError>)
      modifies this, peer
      ensures !reachable ==> r == Err(ConnectionError) && stream == old(stream) && peer.State() == old(peer.State())
      ensures reachable ==>
        var (w, out) := WriteUntilFailure(old(peer.State()), ConnectLines(accessToken, channel));
        && peer.State() == w
        && (out == Done ==> r == Ok(Unit) && stream == peer)
        && (out != Done ==> r == Err(IOError(out.kind)) && stream == old(stream))
    {
      if !reachable {
        return Err(ConnectionError);
      }
      ghost var lines := ConnectLines(accessToken, channel);
      ghost var w0 := peer.State();
      var out := peer.Write("PASS oauth:" + accessToken + "\r\n");
      if out != Done {
        return Err(IOError(out.kind));
      }
      assert WriteUntilFailure(w0, lines) == WriteUntilFailure(peer.State(), lines[1..]);
      out := peer.Write("NICK bot_username\r\n");
      if out != Done {
        return Err(IOError(out.kind));
      }
      assert WriteUntilFailure(w0, lines) == WriteUntilFailure(peer.State(), lines[2..]);
      out := peer.Write("JOIN #" + channel + "\r\n");
      if out != Done {
        return Err(IOError(out.kind));
      }
      assert WriteUntilFailure(w0, lines) == WriteUntilFailure(peer.State(), lines[3..]);
      stream := peer;
      return Ok(Unit);
    }

    /** `read_message`: `Ok(None)` when not connected; otherwise `ReadMessageSpec` on the stream. */
    method ReadMessage() returns (r: ReadOutcome)
      modifies stream
      ensures stream == null ==> r == Returned(Ok(None))
      ensures stream != null ==> (stream.State(), r) == ReadMessageSpec(old(stream.State()))
    {
      if stream == null {
        return Returned(Ok(None));
      }
      var result := stream.Read();
      if result.Failed? {
        return Returned(Err(IOError(result.kind)));
      }
      var line := result.text;
      if line == "" {
        return Returned(Ok(None));
      }
      if StartsWith(line, "PING") {
        var sent := SendRawMessage(PongLine);
        if sent.Err? {
          return Returned(Err(sent.error));
        }
      } else if Contains(line, "PRIVMSG") {
        return ParsePrivmsg(line);
      }
      return Returned(Ok(None));
    }

    /** `send_message`: one PRIVMSG line to the client's channel. */
    method SendMessage(message: string) returns (r: Result<Unit, TwitchError>)
      modifies stream
      ensures stream == null ==> r == Ok(Unit)
      ensures stream != null ==>
        var (w, out) := WriteSpec(old(stream.State()), PrivmsgLine(channel, message));
        && stream.State() == w
        && (out == Done ==> r == Ok(Unit))
        && (out != Done ==> r == Err(IOError(out.kind)))
    {
      r := SendRawMessage("PRIVMSG #" + channel + " :" + message + "\r\n");
    }

    /** `send_raw_message`: writes the line when connected; without a stream it writes nothing and succeeds. */
    method SendRawMessage(message: string) returns (r: Result<Unit, TwitchError>)
      modifies stream
      ensures stream == null ==> r == Ok(Unit)
      ensures stream != null ==>
        var (w, out) := WriteSpec(old(stream.State()), message);
        && stream.State() == w
        && (out == Done ==> r == Ok(Unit))
        && (out != Done ==> r == Err(IOError(out.kind)))
    {
      if stream == null {
        return Ok(Unit);
      }
      var out := stream.Write(message);
      r := if out == Done then Ok(Unit) else Err(IOError(out.kind));
    }

    /**
     * `disconnect`: PART first; a failed PART returns its error and the
     * stream is not shut down; then the shutdown, whose error is returned too.
     */
    method Disconnect() returns (r: Result<Unit, TwitchError>)
      modifies stream
      ensures stream == null ==> r == Ok(Unit)
      ensures stream != null ==>
        var (w, out) := WriteSpec(old(stream.State()), PartLine(channel));
        var (w', down) := ShutdownSpec(w);
        && (out != Done ==> r == Err(IOError(out.kind)) && stream.State() == w)
        && (out == Done ==> stream.State() == w')
        && (out == Done && down == Done ==> r == Ok(Unit))
        && (out == Done && down != Done ==> r == Err(IOError(down.kind)))
    {
      var parted := SendRawMessage("PART #" + channel + "\r\n");
      if parted.Err? {
        return parted;
      }
      if stream != null {
        var down := stream.Shutdown();
        if down != Done {
          return Err(IOError(down.kind));
        }
      }
      return Ok(Unit);
    }
  }
}
