/**
 * The IRC connection over which the chat bot talks to Twitch: the login
 * handshake, the read loop that answers PING and publishes PRIVMSG lines,
 * the tag-and-colon parser for chat lines, and the chat send format.
 */
module TwitchChat {
  import opened Wrappers
  import opened Strings
  import opened Transport

  /** A line the read loop acts on. */
  datatype TcpMessage = Ping(line: string) | PrivMsg(line: string)

  /** A chat message as published to the queue. */
  datatype ReceivedMessage = ReceivedMessage(channel: string, username: string, userId: string, message: string)

  /** A failed connect, or a failed write with the I/O error's kind. */
  datatype ChatError = ConnectFailed | WriteFailed(kind: ErrorKind)

  // ----- line classification and the keepalive reply

  /** A line starting with "PING" is a ping; otherwise a line containing "PRIVMSG" is a chat message; anything else is skipped. */
  function Classify(line: string): (r: Option<TcpMessage>)
    ensures r == Some(Ping(line)) <==> StartsWith(line, "PING")
    ensures r == Some(PrivMsg(line)) <==> !StartsWith(line, "PING") && exists j :: OccursAt(line, "PRIVMSG", j)
    ensures r == None <==> !StartsWith(line, "PING") && forall j :: !OccursAt(line, "PRIVMSG", j)
  {
    if StartsWith(line, "PING") then Some(Ping(line))
    else if Contains(line, "PRIVMSG") then Some(PrivMsg(line))
    else None
  }

  /** Is `s` a keepalive reply line, "PONG " and a payload and CRLF? */
  predicate IsPong(s: string) {
    |s| >= 7 && s[..5] == "PONG " && s[|s| - 2..] == "\r\n"
  }

  /** The reply to a ping line: "PONG " and the line past its fifth byte; `None` where that slice panics. */
  function PongReply(line: string): (r: Option<string>)
    ensures r.Some? ==> IsPong(r.value)
  {
    match ByteSliceFrom(line, 5)
    case None => None
    case Some(payload) =>
      var reply := "PONG " + payload + "\r\n";
      assert reply[..5] == "PONG " && reply[|reply| - 2..] == "\r\n";
      Some(reply)
  }

  /** A ping "PING" + separator + payload is answered by echoing the payload. */
  lemma PongEchoesPayload(separator: char, payload: string)
    requires IsAscii(separator)
    ensures PongReply("PING" + [separator] + payload) == Some("PONG " + payload + "\r\n")
  {
    var line := "PING" + [separator] + payload;
    AsciiPrefixSlice(line, 5);
    assert line[5..] == payload;
  }

  /** The reply panics exactly when the ping line has no fifth character or that character is not ASCII. */
  lemma PongReplyPanics(line: string)
    requires StartsWith(line, "PING")
    ensures PongReply(line).None? <==> |line| == 4 || !IsAscii(line[4])
  {
    assert line[..4] == "PING";
    assert forall i :: 0 <= i < 4 ==> line[i] == "PING"[i];
    AsciiPrefixShift(line, 4, 1);
    DropFirstByte(line[4..]);
  }

  // ----- parsing a chat line

  /** Rust `find` over the fields: the first one that starts with `prefix`. */
  function FirstWithPrefix(items: seq<string>, prefix: string): (r: Option<string>)
    ensures r.Some? ==> r.value in items && StartsWith(r.value, prefix)
    ensures r.None? <==> forall i :: 0 <= i < |items| ==> !StartsWith(items[i], prefix)
    decreases |items|
  {
    if items == [] then None
    else if StartsWith(items[0], prefix) then Some(items[0])
    else FirstWithPrefix(items[1..], prefix)
  }

  lemma {:induction false} FirstWithPrefixAt(items: seq<string>, prefix: string, i: nat)
    requires i < |items| && StartsWith(items[i], prefix)
    requires forall j :: 0 <= j < i ==> !StartsWith(items[j], prefix)
    ensures FirstWithPrefix(items, prefix) == Some(items[i])
    decreases i
  {
    if i > 0 {
      FirstWithPrefixAt(items[1..], prefix, i - 1);
    }
  }

  /** The value in one "name=value" field: the second '='-separated piece, or "" when there is none. */
  function FieldValue(field: string): string {
    var pieces := Split(field, "=");
    if |pieces| >= 2 then pieces[1] else ""
  }

  /**
   * The value of a tag in the metadata token: the first ';'-separated field
   * starting with `key`, split on '=', second piece; "" when there is none.
   */
  function TagValue(metadata: string, key: string): (v: string)
    ensures FirstWithPrefix(Split(metadata, ";"), key).None? ==> v == ""
  {
    match FirstWithPrefix(Split(metadata, ";"), key)
    case None => ""
    case Some(field) => FieldValue(field)
  }

  /** In a field that starts with the key "name=", the value runs from the key to the next '=' or the end of the field. */
  lemma FieldValueAfterKey(field: string, key: string)
    requires |key| > 0 && key[|key| - 1] == '=' && '=' !in key[..|key| - 1]
    requires StartsWith(field, key)
    ensures var rest := field[|key|..];
            var v := FieldValue(field);
            && |v| <= |rest| && rest[..|v|] == v && '=' !in v
            && (|v| < |rest| ==> rest[|v|] == '=')
  {
    var name := key[..|key| - 1];
    var rest := field[|key|..];
    assert field == name + ['='] + rest by {
      assert field[..|key|] == key;
      assert key == name + ['='];
    }
    SplitAfterFirst(name, '=', rest);
    assert FieldValue(field) == Split(rest, "=")[0];
    SplitFirstPiece(rest, '=');
  }

  /**
   * For a key "name=" the value is what follows the key in the first field
   * that starts with it, up to the next '=' or the end of the field.
   */
  lemma TagValueIsFieldValue(metadata: string, key: string, i: nat)
    requires |key| > 0 && key[|key| - 1] == '=' && '=' !in key[..|key| - 1]
    requires i < |Split(metadata, ";")| && StartsWith(Split(metadata, ";")[i], key)
    requires forall j :: 0 <= j < i ==> !StartsWith(Split(metadata, ";")[j], key)
    ensures var rest := Split(metadata, ";")[i][|key|..];
            var v := TagValue(metadata, key);
            && |v| <= |rest| && rest[..|v|] == v && '=' !in v
            && (|v| < |rest| ==> rest[|v|] == '=')
  {
    var fields := Split(metadata, ";");
    FirstWithPrefixAt(fields, key, i);
    assert TagValue(metadata, key) == FieldValue(fields[i]);
    FieldValueAfterKey(fields[i], key);
  }

  /**
   * `parse_chat_message`: the body is the third ':'-separated piece and the
   * metadata is the first ' '-separated token; `None` when there is no third piece.
   * The result is (username, user id, body).
   */
  function ParseChatMessage(message: string): (r: Option<(string, string, string)>)
  {
    var pieces := Split(message, ":");
    if |pieces| >= 3 then
      var metadata := Split(message, " ")[0];
      Some((TagValue(metadata, "display-name="), TagValue(metadata, "user-id="), pieces[2]))
    else None
  }

  /** A chat line is rejected exactly when it holds fewer than two ':' characters. */
  lemma ParseFailsIff(message: string)
    ensures ParseChatMessage(message).None? <==> Count(message, ':') < 2
  {
    SplitCount(message, ':');
  }

  /** The body never contains ':', since it is one ':'-separated piece. */
  lemma BodyHasNoColon(message: string)
    requires ParseChatMessage(message).Some?
    ensures ':' !in ParseChatMessage(message).value.2
  {
    NoOccurrenceNoChar(Split(message, ":")[2], ':');
  }

  /**
   * A line made of a metadata token, a space, and then three ':'-separated
   * pieces of which the last is `body`: it parses to the metadata's tag values
   * and `body`.
   */
  lemma ChatPiecesParse(metadata: string, head: string, body: string)
    requires ' ' !in metadata && ':' !in metadata && ':' !in head && ':' !in body
    ensures ParseChatMessage((metadata + " ") + [':'] + (head + [':'] + body))
            == Some((TagValue(metadata, "display-name="), TagValue(metadata, "user-id="), body))
  {
    var line := (metadata + " ") + [':'] + (head + [':'] + body);
    assert line == metadata + [' '] + ([':'] + (head + [':'] + body));
    SplitAfterFirst(metadata, ' ', [':'] + (head + [':'] + body));
    SplitAfterFirst(metadata + " ", ':', head + [':'] + body);
    SplitAfterFirst(head, ':', body);
    SplitWithout(body, ':');
  }

  /** The tagged chat line, regrouped around its metadata token and its two ':' separators. */
  lemma TaggedLineShape(tags: string, source: string, channel: string, body: string)
    ensures "@" + tags + " :" + source + " PRIVMSG #" + channel + " :" + body
            == ("@" + tags + " ") + [':'] + ((source + " PRIVMSG #" + channel + " ") + [':'] + body)
  {
  }

  /**
   * A tagged chat line as Twitch sends it parses to the tag values of its
   * metadata token and to its body, provided the tags hold no space or ':',
   * the source and channel hold no ':', and the body holds no ':'.
   */
  lemma TaggedPrivmsgParses(tags: string, source: string, channel: string, body: string)
    requires ' ' !in tags && ':' !in tags && ':' !in source && ':' !in channel && ':' !in body
    ensures ParseChatMessage("@" + tags + " :" + source + " PRIVMSG #" + channel + " :" + body)
            == Some((TagValue("@" + tags, "display-name="), TagValue("@" + tags, "user-id="), body))
  {
    TaggedLineShape(tags, source, channel, body);
    ChatPiecesParse("@" + tags, source + " PRIVMSG #" + channel + " ", body);
  }

  // ----- the chat send format and the handshake

  /** The line `send_chat_message` writes. */
  function ChatLine(channel: string, message: string): string {
    "PRIVMSG #" + channel + " :" + message + "\r\n"
  }

  /** The login lines, in the order they are written. */
  function HandshakeLines(authToken: string, channelName: string, nickname: string): seq<string> {
    ["CAP REQ :twitch.tv/tags twitch.tv/commands twitch.tv/membership\r\n",
     "PASS oauth:" + authToken + "\r\n",
     "NICK " + nickname + "\r\n",
     "JOIN #" + channelName + "\r\n"]
  }

  /**
   * The handshake puts the capability request, PASS, NICK and JOIN on the
   * wire in that order, stopping at the first write that fails, and the
   * connection is established exactly when all four went out.
   */
  lemma HandshakeOrder(w: Wire, authToken: string, channelName: string, nickname: string)
    requires !w.isShutdown
    ensures var lines := HandshakeLines(authToken, channelName, nickname);
            var (w', out) := WriteUntilFailure(w, lines);
            var k := SuccessRun(w.outcomes, 4);
            && w'.written == w.written + lines[..k]
            && (out == Done <==> k == 4)
            && (out != Done ==> out == w.outcomes[k])
  {
    WriteUntilFailureWrites(w, HandshakeLines(authToken, channelName, nickname));
  }

  // ----- the read loop, as a function of the stream state

  /** What the read loop works on: the stream and the messages published so far. */
  datatype LoopState = LoopState(wire: Wire, queue: seq<ReceivedMessage>)

  /** The state after handling some lines, and whether handling panicked (a bad byte slice in a PONG). */
  datatype Step = Step(state: LoopState, panicked: bool)

  /**
   * Handling one line: a ping is answered, with a failed write only logged;
   * a chat line that parses is published when the queue has a receiver, and
   * a failed publish is only logged; anything else is skipped.
   */
  function HandleLine(st: LoopState, subscribed: bool, channel: string, line: string): (s: Step)
    ensures s.state.wire.incoming == st.wire.incoming && s.state.wire.isShutdown == st.wire.isShutdown
  {
    match Classify(line)
    case None => Step(st, false)
    case Some(Ping(l)) =>
      (match PongReply(l)
       case None => Step(st, true)
       case Some(pong) => Step(st.(wire := WriteSpec(st.wire, pong).0), false))
    case Some(PrivMsg(l)) =>
      (match ParseChatMessage(l)
       case None => Step(st, false)
       case Some((username, userId, msg)) =>
         if subscribed then Step(st.(queue := st.queue + [ReceivedMessage(channel, username, userId, msg)]), false)
         else Step(st, false))
  }

  function HandleLines(st: LoopState, subscribed: bool, channel: string, lines: seq<string>): (s: Step)
    ensures s.state.wire.incoming == st.wire.incoming && s.state.wire.isShutdown == st.wire.isShutdown
    decreases |lines|
  {
    if lines == [] then Step(st, false)
    else
      var s := HandleLine(st, subscribed, channel, lines[0]);
      if s.panicked then s else HandleLines(s.state, subscribed, channel, lines[1..])
  }

  /** How the read loop ends. */
  datatype ListenExit = EndOfStream | ReadFailed(kind: ErrorKind) | Panicked

  /**
   * The read loop: each read is split on CRLF by itself, with nothing carried
   * over from the read before; a 0-byte read or a read error ends the loop.
   */
  function Listen(st: LoopState, subscribed: bool, channel: string): (LoopState, ListenExit)
    decreases |st.wire.incoming|
  {
    if st.wire.incoming == [] then (st, EndOfStream)
    else
      var after := st.(wire := st.wire.(incoming := st.wire.incoming[1..]));
      match st.wire.incoming[0]
      case Failed(kind) => (after, ReadFailed(kind))
      case Data(chunk) =>
        if chunk == "" then (after, EndOfStream)
        else
          var s := HandleLines(after, subscribed, channel, Split(chunk, "\r\n"));
          if s.panicked then (s.state, Panicked) else Listen(s.state, subscribed, channel)
  }

  /** Is `m` a message published from `channel` whose body holds no ':'? */
  predicate PublishedFrom(m: ReceivedMessage, channel: string) {
    m.channel == channel && ':' !in m.message
  }

  /** What handling lines adds: PONG lines on the wire and messages from the channel in the queue, and no message without a receiver. */
  predicate Extends(st: LoopState, st': LoopState, subscribed: bool, channel: string) {
    && |st.wire.written| <= |st'.wire.written| && st'.wire.written[..|st.wire.written|] == st.wire.written
    && (forall i :: |st.wire.written| <= i < |st'.wire.written| ==> IsPong(st'.wire.written[i]))
    && |st.queue| <= |st'.queue| && st'.queue[..|st.queue|] == st.queue
    && (forall i :: |st.queue| <= i < |st'.queue| ==> PublishedFrom(st'.queue[i], channel))
    && (!subscribed ==> st'.queue == st.queue)
  }

  lemma ExtendsTransitive(a: LoopState, b: LoopState, c: LoopState, subscribed: bool, channel: string)
    requires Extends(a, b, subscribed, channel) && Extends(b, c, subscribed, channel)
    ensures Extends(a, c, subscribed, channel)
  {
    assert c.wire.written[..|a.wire.written|] == c.wire.written[..|b.wire.written|][..|a.wire.written|];
    assert c.queue[..|a.queue|] == c.queue[..|b.queue|][..|a.queue|];
  }

  lemma HandleLineExtends(st: LoopState, subscribed: bool, channel: string, line: string)
    ensures Extends(st, HandleLine(st, subscribed, channel, line).state, subscribed, channel)
  {
    match Classify(line) {
      case None =>
      case Some(Ping(l)) =>
        match PongReply(l) {
          case None =>
          case Some(pong) =>
            var w' := WriteSpec(st.wire, pong).0;
            assert w'.written[..|st.wire.written|] == st.wire.written;
        }
      case Some(PrivMsg(l)) =>
        if ParseChatMessage(l).Some? {
          BodyHasNoColon(l);
        }
    }
  }

  lemma {:induction false} HandleLinesExtends(st: LoopState, subscribed: bool, channel: string, lines: seq<string>)
    ensures Extends(st, HandleLines(st, subscribed, channel, lines).state, subscribed, channel)
    decreases |lines|
  {
    if lines != [] {
      var s := HandleLine(st, subscribed, channel, lines[0]);
      HandleLineExtends(st, subscribed, channel, lines[0]);
      if !s.panicked {
        HandleLinesExtends(s.state, subscribed, channel, lines[1..]);
        ExtendsTransitive(st, s.state, HandleLines(s.state, subscribed, channel, lines[1..]).state, subscribed, channel);
      }
    }
  }

  /**
   * The read loop only ever writes PONG lines, appends to what was written
   * before, publishes only messages of its own channel with ':'-free bodies,
   * and publishes nothing while the queue has no receiver.
   */
  lemma {:induction false} ListenExtends(st: LoopState, subscribed: bool, channel: string)
    ensures Extends(st, Listen(st, subscribed, channel).0, subscribed, channel)
    decreases |st.wire.incoming|
  {
    if st.wire.incoming != [] {
      var after := st.(wire := st.wire.(incoming := st.wire.incoming[1..]));
      match st.wire.incoming[0]
      case Failed(kind) =>
      case Data(chunk) =>
        if chunk != "" {
          var s := HandleLines(after, subscribed, channel, Split(chunk, "\r\n"));
          HandleLinesExtends(after, subscribed, channel, Split(chunk, "\r\n"));
          if !s.panicked {
            ListenExtends(s.state, subscribed, channel);
            ExtendsTransitive(st, s.state, Listen(s.state, subscribed, channel).0, subscribed, channel);
          }
        }
    }
  }

  /** The loop ends with a read error only on an error read from the transcript. */
  lemma {:induction false} ListenReadFailure(st: LoopState, subscribed: bool, channel: string)
    ensures Listen(st, subscribed, channel).1.ReadFailed? ==> Failed(Listen(st, subscribed, channel).1.kind) in st.wire.incoming
    decreases |st.wire.incoming|
  {
    if st.wire.incoming != [] {
      var after := st.(wire := st.wire.(incoming := st.wire.incoming[1..]));
      match st.wire.incoming[0]
      case Failed(kind) =>
      case Data(chunk) =>
        if chunk != "" {
          var s := HandleLines(after, subscribed, channel, Split(chunk, "\r\n"));
          if !s.panicked {
            ListenReadFailure(s.state, subscribed, channel);
          }
        }
    }
  }

  /** A read with no CR in it is handled as one whole line. */
  lemma SingleLineRead(piece: string)
    requires '\r' !in piece
    ensures forall st: LoopState, subscribed: bool, channel: string ::
              HandleLines(st, subscribed, channel, Split(piece, "\r\n")) == HandleLine(st, subscribed, channel, piece)
  {
    SplitWithoutCrlf(piece);
    assert [piece][1..] == [];
  }

  /** A non-empty read holding one line that is neither a ping nor a chat line changes nothing. */
  lemma IgnoredReadSkipped(st: LoopState, subscribed: bool, channel: string, piece: string)
    requires st.wire.incoming != [] && st.wire.incoming[0] == Data(piece)
    requires piece != "" && '\r' !in piece && Classify(piece) == None
    ensures Listen(st, subscribed, channel)
            == Listen(st.(wire := st.wire.(incoming := st.wire.incoming[1..])), subscribed, channel)
  {
    SingleLineRead(piece);
  }

  /** The second half of a split ping is neither a ping nor a chat line. */
  lemma PingTailIgnored()
    ensures Classify("NG :tmi.twitch.tv") == None && '\r' !in "NG :tmi.twitch.tv"
  {
    var tail := "NG :tmi.twitch.tv";
    assert forall i | 0 <= i < |tail| :: tail[i] != '\r' && tail[i] != 'P';
    forall j: nat ensures !OccursAt(tail, "PRIVMSG", j) {
      assert j + 7 <= |tail| ==> tail[j..j + 7][0] == tail[j];
    }
    assert !StartsWith(tail, "PING") by {
      assert tail[..4][0] == 'N';
    }
  }

  /**
   * No partial line is carried over between reads: a ping whose halves arrive
   * in two reads is never answered, and nothing is written.
   */
  lemma PingSplitAcrossReadsIsNotAnswered(w: Wire, queue: seq<ReceivedMessage>, subscribed: bool, channel: string)
    ensures var split := LoopState(w.(incoming := [Data("PI"), Data("NG :tmi.twitch.tv")]), queue);
            Listen(split, subscribed, channel) == (LoopState(w.(incoming := []), queue), EndOfStream)
  {
    var tail := "NG :tmi.twitch.tv";
    assert '\r' !in "PI" && Classify("PI") == None;
    PingTailIgnored();
    var first := LoopState(w.(incoming := [Data("PI"), Data(tail)]), queue);
    var second := LoopState(w.(incoming := [Data(tail)]), queue);
    var last := LoopState(w.(incoming := []), queue);
    IgnoredReadSkipped(first, subscribed, channel, "PI");
    assert first.(wire := first.wire.(incoming := first.wire.incoming[1..])) == second;
    IgnoredReadSkipped(second, subscribed, channel, tail);
    assert second.(wire := second.wire.(incoming := second.wire.incoming[1..])) == last;
  }

  /** A ping that arrives in a single read is answered with its payload echoed. */
  lemma PingInOneReadIsAnswered(w: Wire, queue: seq<ReceivedMessage>, subscribed: bool, channel: string, payload: string)
    requires !w.isShutdown && w.outcomes == [] && '\r' !in payload
    ensures var whole := LoopState(w.(incoming := [Data("PING " + payload)]), queue);
            Listen(whole, subscribed, channel) == (LoopState(w.(incoming := [], written := w.written + ["PONG " + payload + "\r\n"]), queue), EndOfStream)
  {
    var line := "PING " + payload;
    assert line == "PING" + [' '] + payload;
    PongEchoesPayload(' ', payload);
    assert line[..4] == "PING";
    assert '\r' !in line;
    SingleLineRead(line);
    var start := LoopState(w.(incoming := []), queue);
    var s := HandleLine(start, subscribed, channel, line);
    assert s == Step(start.(wire := WriteSpec(start.wire, "PONG " + payload + "\r\n").0), false);
  }

  /** A tagged chat line contains "PRIVMSG" and, starting with '@', is not a ping. */
  lemma TaggedLineIsChat(tags: string, source: string, channel: string, body: string)
    ensures var line := "@" + tags + " :" + source + " PRIVMSG #" + channel + " :" + body;
            Classify(line) == Some(PrivMsg(line))
  {
    var line := "@" + tags + " :" + source + " PRIVMSG #" + channel + " :" + body;
    var k := |"@" + tags + " :" + source + " "|;
    assert line == ("@" + tags + " :" + source + " ") + "PRIVMSG" + (" #" + channel + " :" + body);
    assert OccursAt(line, "PRIVMSG", k);
    assert line[..4][0] == '@';
  }

  /** A one-line read of a chat line that parses is published exactly when the queue has a receiver; nothing is written. */
  lemma ParsedLineInOneReadIsPublished(w: Wire, queue: seq<ReceivedMessage>, subscribed: bool, room: string,
                                       line: string, username: string, userId: string, body: string)
    requires line != "" && '\r' !in line && Classify(line) == Some(PrivMsg(line))
    requires ParseChatMessage(line) == Some((username, userId, body))
    ensures var published := ReceivedMessage(room, username, userId, body);
            Listen(LoopState(w.(incoming := [Data(line)]), queue), subscribed, room)
            == (LoopState(w.(incoming := []), if subscribed then queue + [published] else queue), EndOfStream)
  {
    SingleLineRead(line);
    var start := LoopState(w.(incoming := []), queue);
    var published := ReceivedMessage(room, username, userId, body);
    assert HandleLine(start, subscribed, room, line)
           == Step(start.(queue := if subscribed then queue + [published] else queue), false);
  }

  /** A tagged chat line carries no CR when none of its pieces does. */
  lemma TaggedLineHasNoCr(tags: string, source: string, channel: string, body: string)
    requires '\r' !in tags && '\r' !in source && '\r' !in channel && '\r' !in body
    ensures '\r' !in "@" + tags + " :" + source + " PRIVMSG #" + channel + " :" + body
  {
  }

  /**
   * A tagged chat line that arrives in a single read is published, with its
   * display name, user id and body, exactly when the queue has a receiver;
   * nothing is written.
   */
  lemma ChatLineInOneReadIsPublished(w: Wire, queue: seq<ReceivedMessage>, subscribed: bool, room: string,
                                     tags: string, source: string, channel: string, body: string)
    requires ' ' !in tags && ':' !in tags && ':' !in source && ':' !in channel && ':' !in body
    requires '\r' !in tags && '\r' !in source && '\r' !in channel && '\r' !in body
    ensures var line := "@" + tags + " :" + source + " PRIVMSG #" + channel + " :" + body;
            var published := ReceivedMessage(room, TagValue("@" + tags, "display-name="), TagValue("@" + tags, "user-id="), body);
            Listen(LoopState(w.(incoming := [Data(line)]), queue), subscribed, room)
            == (LoopState(w.(incoming := []), if subscribed then queue + [published] else queue), EndOfStream)
  {
    var line := "@" + tags + " :" + source + " PRIVMSG #" + channel + " :" + body;
    TaggedLineIsChat(tags, source, channel, body);
    TaggedPrivmsgParses(tags, source, channel, body);
    TaggedLineHasNoCr(tags, source, channel, body);
    assert line[0] == '@';
    ParsedLineInOneReadIsPublished(w, queue, subscribed, room, line,
                                   TagValue("@" + tags, "display-name="), TagValue("@" + tags, "user-id="), body);
  }

  // ----- the connection object

  class TwitchChatConnection {
    const stream: Stream
    /** How many receivers the broadcast queue has; the one made with the queue is dropped at once. */
    var receivers: nat
    /** The messages the queue has delivered to its receivers. */
    var queue: seq<ReceivedMessage>

    constructor (stream: Stream)
      ensures this.stream == stream && receivers == 0 && queue == []
    {
      this.stream := stream;
      receivers := 0;
      queue := [];
    }

    method Subscribe()
      modifies this`receivers
      ensures receivers == old(receivers) + 1
    {
      receivers := receivers + 1;
    }

    method WriteAll(data: string) returns (r: Result<Unit, ChatError>)
      modifies stream
      ensures var (w, out) := WriteSpec(old(stream.State()), data);
              && stream.State() == w
              && (out == Done ==> r == Ok(Unit))
              && (out != Done ==> r == Err(WriteFailed(out.kind)))
    {
      var out := stream.Write(data);
      r := if out == Done then Ok(Unit) else Err(WriteFailed(out.kind));
    }

    /**
     * `connect_and_authenticate`: opens the connection on `peer` (unless the
     * server is unreachable) and writes the handshake, returning the first
     * failure.
     */
    static method ConnectAndAuthenticate(peer: Stream, reachable: bool, authToken: string, channelName: string, nickname: string)
      returns (r: Result<TwitchChatConnection, ChatError>)
      modifies peer
      ensures !reachable ==> r == Err(ConnectFailed) && peer.State() == old(peer.State())
      ensures reachable ==>
        var (w, out) := WriteUntilFailure(old(peer.State()), HandshakeLines(authToken, channelName, nickname));
        && peer.State() == w
        && (r.Ok? <==> out == Done)
        && (out != Done ==> r == Err(WriteFailed(out.kind)))
      ensures r.Ok? ==> fresh(r.value) && r.value.stream == peer && r.value.receivers == 0 && r.value.queue == []
    {
      if !reachable {
        return Err(ConnectFailed);
      }
      ghost var lines := HandshakeLines(authToken, channelName, nickname);
      ghost var w0 := peer.State();
      var connection := new TwitchChatConnection(peer);
      var written := connection.WriteAll("CAP REQ :twitch.tv/tags twitch.tv/commands twitch.tv/membership\r\n");
      if written.Err? {
        return Err(written.error);
      }
      assert WriteUntilFailure(w0, lines) == WriteUntilFailure(peer.State(), lines[1..]);
      written := connection.WriteAll("PASS oauth:" + authToken + "\r\n");
      if written.Err? {
        return Err(written.error);
      }
      assert WriteUntilFailure(w0, lines) == WriteUntilFailure(peer.State(), lines[2..]);
      written := connection.WriteAll("NICK " + nickname + "\r\n");
      if written.Err? {
        return Err(written.error);
      }
      assert WriteUntilFailure(w0, lines) == WriteUntilFailure(peer.State(), lines[3..]);
      written := connection.WriteAll("JOIN #" + channelName + "\r\n");
      if written.Err? {
        return Err(written.error);
      }
      assert WriteUntilFailure(w0, lines) == WriteUntilFailure(peer.State(), lines[4..]);
      return Ok(connection);
    }

    /** The body of the per-line loop of `listen_and_handle_messages`, proved against `HandleLine`. */
    method HandleReceivedLine(channel: string, message: string) returns (panicked: bool)
      modifies this`queue, stream
      ensures Step(LoopState(stream.State(), queue), panicked)
              == HandleLine(LoopState(old(stream.State()), old(queue)), receivers > 0, channel, message)
    {
      panicked := false;
      match Classify(message) {
        case None =>
        case Some(Ping(m)) =>
          var pong := PongReply(m);
          if pong.None? {
            return true;
          }
          var written := stream.Write(pong.value);
        case Some(PrivMsg(m)) =>
          var parsed := ParseChatMessage(m);
          if parsed.Some? {
            var (username, userId, msg) := parsed.value;
            if receivers > 0 {
              queue := queue + [ReceivedMessage(channel, username, userId, msg)];
            }
          }
      }
    }

    /** The per-line loop over one read's CRLF-separated pieces, proved against `HandleLines`. */
    method HandleReceivedLines(channel: string, messages: seq<string>) returns (panicked: bool)
      modifies this`queue, stream
      ensures Step(LoopState(stream.State(), queue), panicked)
              == HandleLines(LoopState(old(stream.State()), old(queue)), receivers > 0, channel, messages)
    {
      ghost var outcome := HandleLines(LoopState(stream.State(), queue), receivers > 0, channel, messages);
      var i := 0;
      while i < |messages|
        invariant 0 <= i <= |messages|
        invariant HandleLines(LoopState(stream.State(), queue), receivers > 0, channel, messages[i..]) == outcome
        decreases |messages| - i
      {
        assert messages[i..][0] == messages[i] && messages[i..][1..] == messages[i + 1..];
        panicked := HandleReceivedLine(channel, messages[i]);
        if panicked {
          return;
        }
        i := i + 1;
      }
      panicked := false;
    }

    /** `listen_and_handle_messages`, proved against `Listen`. */
    method ListenAndHandleMessages(channel: string) returns (exit: ListenExit)
      modifies this`queue, stream
      ensures (LoopState(stream.State(), queue), exit) == Listen(LoopState(old(stream.State()), old(queue)), receivers > 0, channel)
    {
      ghost var goal := Listen(LoopState(stream.State(), queue), receivers > 0, channel);
      while true
        invariant Listen(LoopState(stream.State(), queue), receivers > 0, channel) == goal
        decreases |stream.incoming|
      {
        var result := stream.Read();
        if result.Failed? {
          return ReadFailed(result.kind);
        }
        var chunk := result.text;
        if chunk == "" {
          return EndOfStream;
        }
        var panicked := HandleReceivedLines(channel, Split(chunk, "\r\n"));
        if panicked {
          return Panicked;
        }
      }
    }

    /** `send_chat_message`: one PRIVMSG line to the channel. */
    method SendChatMessage(channel: string, message: string) returns (r: Result<Unit, ChatError>)
      modifies stream
      ensures var (w, out) := WriteSpec(old(stream.State()), ChatLine(channel, message));
              && stream.State() == w
              && (out == Done ==> r == Ok(Unit))
              && (out != Done ==> r == Err(WriteFailed(out.kind)))
    {
      r := WriteAll("PRIVMSG #" + channel + " :" + message + "\r\n");
    }
  }

  /** The bot's per-channel record. */
  datatype TwitchBot = TwitchBot(channel: string, nickname: string, authToken: string, chatConnection: TwitchChatConnection)
}
