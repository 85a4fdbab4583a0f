# berry_be_rs core, modelled in Dafny

This project models the core of the berry_be_rs backend, which has three parts:

- **Twitch chat bot.**
  - Two IRC clients:
    - `TwitchChatConnection`, with its tag parser and broadcast queue.
    - `TwitchAPI`, with its PRIVMSG parser and keepalive reply.
  - The command table.
  - The bot and service read loops.
  - The bot registry and the bot manager.
- **Web-API helpers.**
  - The authentication middleware.
  - The JSON response envelope.
  - The JWT helper and its expiry arithmetic.
  - The `view_count` deserializer.
  - The OAuth token URL.
- **OpenAI moderation decision.**
  - The per-category thresholds and punishments.
  - The rounding rule.
  - The list of flagged category names.

Code that returns a value is modelled as functions and lemmas. Code that changes objects is modelled as classes:

- `Stream`
- `TwitchChatConnection`
- `TwitchApi`
- `Bot`
- `TwitchService`
- `BotStorage`
- `BotManager`

Each method of these classes is proved against a function of the old state. `Bot.Run` and `TwitchChatConnection.ListenAndHandleMessages` are examples.

A socket is a `Stream` whose state is a `Wire`. A `Wire` holds five things:

- the transcript of what the reads will return;
- the outcome of each write: done, or an I/O error with its kind (`WouldBlock` or another kind);
- the lines written so far;
- whether the socket has been shut down;
- the outcome of a shutdown, in the same form.

The sockets are non-blocking, so a write can fail with `WouldBlock` as well as a read. The error kind of a failed write reaches the caller unchanged.

The read loops are proved against functions (`RunLoop`, `Listen`, `ServiceLoop`) that run over that transcript. Lemmas then state what the loops do:

- which lines they can write;
- when they stop;
- what they publish;
- that no partial line is carried between reads.

Rust semantics are written out where they matter:

- A byte slice `&s[k..]` panics unless it lands on a character boundary (`ByteSliceFrom` with UTF-8 lengths).
- `str::trim` and `split_whitespace` use the Unicode White_Space set.
- `i32::from_str` rejects an empty string, a lone sign and non-digits, and reports overflow in either direction.
- `HeaderValue::to_str` accepts only visible ASCII and tab.
- `now as usize` wraps a negative clock modulo 2^64.
- The arithmetic in `generate_exp_time` is checked, as in a debug build.

A panic is a distinct result: `None`, `Panicked`, `Crashed` or `Err(message)`.

Four behaviours a reader might expect are not what the code does. The model follows the code in each:

- The flagged categories are not ranked by severity. A score is only compared with its category's threshold.
- The chat text is not lower-cased before command lookup. Only the command names are.
- The bot registry does not refuse a second bot for a channel. It replaces the first.
- The chat connection keeps no partial line between reads. It clears its buffer on every read.

## Model

| member | source | states |
|---|---|---|
| Moderation.CategoryNamed | berry_lib/src/openai/moderation.rs:249-273 | The category whose wire name is the given string. When none has that name, no category has it. |
| Moderation.CategoryNamedWireName | berry_lib/src/openai/moderation.rs:68-93 | Looking up the wire name of a category gives back that category. |
| Moderation.WireNameInjective | berry_lib/src/openai/moderation.rs:68-93 | No two categories share a wire name. |
| Moderation.Rule | berry_lib/src/openai/moderation.rs:229-274 | Unknown category: threshold 0, no punishment. Known category: a threshold from 500 to 990 and a real punishment. |
| Moderation.RuleTableHarassmentHate | berry_lib/src/openai/moderation.rs:229-241 | The threshold and action of the harassment and hate categories, exactly as tabled. |
| Moderation.RuleTableSelfHarm | berry_lib/src/openai/moderation.rs:229-241 | The threshold and action of the three self-harm categories. |
| Moderation.RuleTableSexualViolence | berry_lib/src/openai/moderation.rs:229-241 | The threshold and action of the sexual and violence categories, including 500/Ban for sexual/minors. |
| Moderation.RoundToThousandths | berry_lib/src/openai/moderation.rs:376-379 | The result is the score in thousandths, rounded half away from zero. |
| Moderation.RoundMonotone | berry_lib/src/openai/moderation.rs:376-379 | Rounding never reverses the order of two scores. |
| Moderation.ModerateInput | berry_lib/src/openai/moderation.rs:228-373 | The verdict carries the rounded score. A flagged verdict carries the category's punishment. |
| Moderation.FlaggedIffScoreReachesThreshold | berry_lib/src/openai/moderation.rs:276-278 | A known category is flagged exactly when the rounded score reaches its threshold. It is then punished by that category's action. |
| Moderation.ThresholdIsInclusive | berry_lib/src/openai/moderation.rs:278 | A score exactly at the threshold is flagged. |
| Moderation.UnknownCategoryFlagged | berry_lib/src/openai/moderation.rs:273-278 | An unknown category has threshold 0. Every score that does not round below zero is flagged, with no punishment. |
| Moderation.FlaggingIsMonotone | berry_lib/src/openai/moderation.rs:276-278 | Raising the score never unflags a message. |
| Moderation.VerdictIgnoresAuthorAndText | berry_lib/src/openai/moderation.rs:228-373 | The verdict depends only on the category and the score. |
| Moderation.GetScore | berry_lib/src/openai/moderation.rs:145-160 | A known field name gives that category's score. Any other name gives 0.0. |
| Moderation.Serialized | berry_lib/src/openai/moderation.rs:64-94 | The serialized flag object has the eleven renamed keys in declaration order, each with its flag. |
| Moderation.WireNamesAscending | berry_lib/src/openai/moderation.rs:68-93 | The declaration order of the keys is also their lexicographic order. |
| Moderation.TrueKeysMembership | berry_lib/src/openai/moderation.rs:102-106 | A key is kept exactly when some entry pairs it with true. |
| Moderation.TrueKeysDistinct | berry_lib/src/openai/moderation.rs:102-106 | Distinct keys in the entries give distinct kept keys. |
| Moderation.IndexOf | berry_lib/src/openai/moderation.rs:64-94 | Every category has a position in the field order. |
| Moderation.SerializedTrueKeysMembership | berry_lib/src/openai/moderation.rs:97-110 | A name is returned exactly when it is the wire name of a flagged category. |
| Moderation.SerializedTrueKeysDistinct | berry_lib/src/openai/moderation.rs:97-110 | No name is returned twice. |
| Moderation.IterateAndFilterTrue | berry_lib/src/openai/moderation.rs:97-110 | The loop returns the flagged keys in field order: exactly the flagged categories' names, with no repeats. |
| TwitchChat.Classify | berry_lib/src/twitch/twitch_chat.rs:83-87 | PING when the line starts with "PING". Otherwise PRIVMSG when "PRIVMSG" occurs in it. Otherwise nothing. |
| TwitchChat.PongReply | berry_lib/src/twitch/twitch_chat.rs:90-93 | A reply, when there is one, is "PONG " plus a payload plus CRLF. |
| TwitchChat.PongEchoesPayload | berry_lib/src/twitch/twitch_chat.rs:90-93 | A ping "PING" + c + payload, with c ASCII, is answered with "PONG " + payload + CRLF. |
| TwitchChat.PongReplyPanics | berry_lib/src/twitch/twitch_chat.rs:91 | The reply panics exactly when the ping line is just "PING" or its fifth character is not ASCII. |
| TwitchChat.FirstWithPrefix | berry_lib/src/twitch/twitch_chat.rs:130-139 | The `find` over the fields returns some field with the prefix. It returns nothing exactly when no field has the prefix. |
| TwitchChat.FirstWithPrefixAt | berry_lib/src/twitch/twitch_chat.rs:130-139 | The result is the earliest field with the prefix. |
| TwitchChat.TagValue | berry_lib/src/twitch/twitch_chat.rs:130-139 | A missing tag gives "". |
| TwitchChat.FieldValueAfterKey | berry_lib/src/twitch/twitch_chat.rs:130-139 | The value in a "name=..." field is its text after the key, up to the next '='. |
| TwitchChat.TagValueIsFieldValue | berry_lib/src/twitch/twitch_chat.rs:129-139 | The tag value comes from the first field that starts with the key, cut after the key and stopped at the next '='. |
| TwitchChat.ParseChatMessage | berry_lib/src/twitch/twitch_chat.rs:126-144 | Definition: the body is the third ':'-separated piece, and the tags come from the first ' '-separated token. ParseFailsIff, BodyHasNoColon and TaggedPrivmsgParses state its contract. |
| TwitchChat.ParseFailsIff | berry_lib/src/twitch/twitch_chat.rs:126-144 | A chat line is rejected exactly when it has fewer than two ':'. |
| TwitchChat.BodyHasNoColon | berry_lib/src/twitch/twitch_chat.rs:127-128 | The parsed body never contains ':'. |
| TwitchChat.ChatPiecesParse | berry_lib/src/twitch/twitch_chat.rs:126-144 | Given a metadata token, a space and three ':'-separated pieces, parsing returns the metadata's tags and the last piece. |
| TwitchChat.TaggedPrivmsgParses | berry_lib/src/twitch/twitch_chat.rs:126-144 | A Twitch-tagged PRIVMSG parses to its display-name and user-id tags and its body. |
| TwitchChat.HandshakeOrder | berry_lib/src/twitch/twitch_chat.rs:46-51 | CAP, PASS, NICK and JOIN are written in order, up to the first failure. The connection succeeds exactly when all four went out; otherwise the outcome is the first failed write's. |
| TwitchChat.HandleLine | berry_lib/src/twitch/twitch_chat.rs:83-107 | Handling a line leaves the transcript and the shutdown flag unchanged. |
| TwitchChat.HandleLines | berry_lib/src/twitch/twitch_chat.rs:81-110 | Handling a read's lines leaves the transcript and the shutdown flag unchanged. |
| TwitchChat.Listen | berry_lib/src/twitch/twitch_chat.rs:63-120 | Definition of the read loop over the transcript. ListenExtends, ListenReadFailure, ChatLineInOneReadIsPublished and PingInOneReadIsAnswered state its contract. |
| TwitchChat.ExtendsTransitive | berry_lib/src/twitch/twitch_chat.rs:66-119 | What the loop adds over two stretches is what it adds over both. |
| TwitchChat.HandleLineExtends | berry_lib/src/twitch/twitch_chat.rs:83-107 | One line adds at most a PONG line, or one message of the channel with a ':'-free body. It publishes nothing without a receiver. |
| TwitchChat.HandleLinesExtends | berry_lib/src/twitch/twitch_chat.rs:81-110 | The same as HandleLineExtends, for all the lines of one read. |
| TwitchChat.ListenExtends | berry_lib/src/twitch/twitch_chat.rs:63-120 | The whole loop appends only PONG lines and publishes only messages of its channel with ':'-free bodies. It publishes nothing without a receiver. |
| TwitchChat.ListenReadFailure | berry_lib/src/twitch/twitch_chat.rs:113-116 | The loop stops with a read error only on an error in the transcript. |
| TwitchChat.SingleLineRead | berry_lib/src/twitch/twitch_chat.rs:81 | A read with no CR is handled as one whole line. |
| TwitchChat.IgnoredReadSkipped | berry_lib/src/twitch/twitch_chat.rs:81-87 | A read that is neither a ping nor a chat line changes nothing. |
| TwitchChat.PingTailIgnored | berry_lib/src/twitch/twitch_chat.rs:83-87 | The second half of a split ping is neither a ping nor a chat line. |
| TwitchChat.PingSplitAcrossReadsIsNotAnswered | berry_lib/src/twitch/twitch_chat.rs:67-81 | The buffer is cleared on every read, so a ping split over two reads is never answered. |
| TwitchChat.PingInOneReadIsAnswered | berry_lib/src/twitch/twitch_chat.rs:72-93 | A ping in a single read is answered with its payload echoed. |
| TwitchChat.TaggedLineIsChat | berry_lib/src/twitch/twitch_chat.rs:83-86 | A tagged line "@tags :source PRIVMSG #channel :body" is classified as a chat line, not a ping. |
| TwitchChat.ParsedLineInOneReadIsPublished | berry_lib/src/twitch/twitch_chat.rs:95-107 | A one-line read of a chat line that parses publishes its username, user id and body, tagged with the loop's channel, exactly when the queue has a receiver. Nothing is written. |
| TwitchChat.ChatLineInOneReadIsPublished | berry_lib/src/twitch/twitch_chat.rs:63-120 | A tagged chat line in a single read is published with its display-name, its user-id and its body exactly when the queue has a receiver. The loop then ends at the end of the stream. |
| TwitchChat.TwitchChatConnection.constructor | berry_lib/src/twitch/twitch_chat.rs:29-35 | Wraps the stream with an empty queue and no receiver, since the one made with the channel is dropped. |
| TwitchChat.TwitchChatConnection.Subscribe | berry_lib/src/twitch/twitch_chat.rs:25 | Adds one receiver to the broadcast queue. |
| TwitchChat.TwitchChatConnection.WriteAll | berry_lib/src/twitch/twitch_chat.rs:57-61 | Writes the data once. A failure becomes the error, with the write's error kind. |
| TwitchChat.TwitchChatConnection.ConnectAndAuthenticate | berry_lib/src/twitch/twitch_chat.rs:37-55 | An unreachable server is an error. Otherwise the handshake lines are written until one fails, whose error kind is returned, and full success yields a fresh connection. |
| TwitchChat.TwitchChatConnection.HandleReceivedLine | berry_lib/src/twitch/twitch_chat.rs:83-107 | The new stream, queue and panic flag are those HandleLine gives. |
| TwitchChat.TwitchChatConnection.HandleReceivedLines | berry_lib/src/twitch/twitch_chat.rs:81-110 | The new stream, queue and panic flag are those HandleLines gives. |
| TwitchChat.TwitchChatConnection.ListenAndHandleMessages | berry_lib/src/twitch/twitch_chat.rs:63-120 | The final stream, queue and exit are those Listen gives. Listen publishes only while the queue has a receiver (ListenExtends), and then publishes each tagged chat line it reads (ChatLineInOneReadIsPublished). |
| TwitchChat.TwitchChatConnection.SendChatMessage | berry_lib/src/twitch/twitch_chat.rs:146-151 | Writes "PRIVMSG #channel :message" plus CRLF. A failure becomes the error, with the write's error kind. |
| TwitchApi.ParsePrivmsg | berry_lib/src/twitch/twitch_api.rs:70-77 | Parsing yields a message or a MessageParseError. The sender has no '!', and the text has no surrounding whitespace. |
| TwitchApi.ParseErrorIff | berry_lib/src/twitch/twitch_api.rs:71-72 | A parse error happens exactly when the line has fewer than three spaces. |
| TwitchApi.ParsePanicsIff | berry_lib/src/twitch/twitch_api.rs:73-74 | It panics exactly when the first token or the re-joined tail is empty or starts with a non-ASCII character. |
| TwitchApi.RelayedTokens | berry_lib/src/twitch/twitch_api.rs:71 | A relayed line splits into its source, "PRIVMSG", its target, then the pieces of the trailing part. |
| TwitchApi.PrivmsgOfPieces | berry_lib/src/twitch/twitch_api.rs:71-75 | A line built from source, target and trailing part parses to the sender and text those parts determine. |
| TwitchApi.RelayedPrivmsgParses | berry_lib/src/twitch/twitch_api.rs:70-75 | ":nick!user@host PRIVMSG #chan :text" plus CRLF parses to (nick, text). |
| TwitchApi.RelayedSender | berry_lib/src/twitch/twitch_api.rs:73 | The sender is the nickname before the first '!'. |
| TwitchApi.RelayedText | berry_lib/src/twitch/twitch_api.rs:74 | Trimming removes the CRLF and leaves the text. |
| TwitchApi.ReadMessageSpec | berry_lib/src/twitch/twitch_api.rs:64-82 | Every read consumes one transcript entry. An empty transcript is `Ok(None)`. A read never fails with ConnectionError. A failed read or PONG write returns its own error kind. |
| TwitchApi.ReadMessageWrites | berry_lib/src/twitch/twitch_api.rs:67-69 | A read writes nothing, or the fixed PONG line for a ping, in which case it returns `Ok(None)`. |
| TwitchApi.PingAnsweredWithFixedPong | berry_lib/src/twitch/twitch_api.rs:68-69 | Every ping gets "PONG :tmi.twitch.tv", whatever its payload. |
| TwitchApi.PongWriteErrorReturned | berry_lib/src/twitch/twitch_api.rs:68-69 | A PONG write that fails, WouldBlock included, makes the read return that write's error and writes nothing. |
| TwitchApi.TwitchApi.constructor | berry_lib/src/twitch/twitch_api.rs:40-47 | Stores the token and channel, not connected. |
| TwitchApi.TwitchApi.Connect | berry_lib/src/twitch/twitch_api.rs:49-62 | Unreachable: ConnectionError. Otherwise PASS, NICK and JOIN are written until one fails, whose error kind is returned, and the stream is kept only after all three. |
| TwitchApi.TwitchApi.ReadMessage | berry_lib/src/twitch/twitch_api.rs:64-82 | Not connected: `Ok(None)`. Otherwise the result is ReadMessageSpec of the stream. |
| TwitchApi.TwitchApi.SendMessage | berry_lib/src/twitch/twitch_api.rs:84-86 | Writes "PRIVMSG #channel :message" plus CRLF when connected; a failed write is returned with its error kind. Not connected: succeeds and writes nothing. |
| TwitchApi.TwitchApi.SendRawMessage | berry_lib/src/twitch/twitch_api.rs:88-94 | Writes the message when connected; a failed write is returned with its error kind. Not connected: succeeds. |
| TwitchApi.TwitchApi.Disconnect | berry_lib/src/twitch/twitch_api.rs:96-102 | PART is written first. A failed PART returns the error with no shutdown. Otherwise the stream is shut down, and a failed shutdown returns its error. |
| Transport.ReadSpec | berry_lib/src/twitch/twitch_chat.rs:72-76 | Definition: the next transcript entry, or an empty read at the end. Stream.Read is proved against it. |
| Transport.WriteSpec | berry_lib/src/twitch/twitch_api.rs:91 | Definition: the next scripted outcome; the data is appended only on success, and a shut-down socket fails. WriteUntilFailureWrites and Stream.Write state its contract. |
| Transport.ShutdownSpec | berry_lib/src/twitch/twitch_api.rs:99 | Definition: the scripted shutdown outcome; only a success marks the socket shut down. Stream.Shutdown and both Disconnect methods are proved against it. |
| Transport.SuccessRun | berry_lib/src/twitch/twitch_chat.rs:46-51 | The number of leading successful writes is at most the number attempted. Every outcome before it is done, and the one at it, if any, is a failure. |
| Transport.WriteUntilFailureWrites | berry_lib/src/twitch/twitch_chat.rs:46-51 | Writing lines with `?` after each puts the lines before the first failure on the wire. It succeeds exactly when every one went out, and otherwise yields the first failed outcome. |
| Transport.Stream.constructor | berry_lib/src/twitch/twitch_chat.rs:44 | A fresh socket with the given transcript and scripted outcomes, nothing written, not shut down. |
| Transport.Stream.Read | berry_lib/src/twitch/twitch_chat.rs:72 | One read consumes the next transcript entry. |
| Transport.Stream.Write | berry_lib/src/twitch/twitch_chat.rs:57-61 | One write appends the data when it succeeds and the socket is open. The outcome is the next scripted one, with its error kind. |
| Transport.Stream.Shutdown | berry_lib/src/twitch/twitch_api.rs:98-100 | A successful shutdown marks the socket shut down and changes nothing else. A failed one returns its error and leaves the socket as it was. |
| Commands.FindByName | berry_lib/src/twitch/commands.rs:49-53 | The result is a listed command whose lower-cased name is the key. Nothing is returned exactly when no command's name matches. |
| Commands.FindByNameFirst | berry_lib/src/twitch/commands.rs:49-53 | The earliest matching command is returned. |
| Commands.CommandFor | berry_lib/src/twitch/commands.rs:46-57 | A text without a leading '!' names no command. The `[1..]` slice after '!' never panics. |
| Commands.GetCommand | berry_lib/src/twitch/commands.rs:46-57 | The loop returns exactly CommandFor's command. |
| Commands.NamesAreLowerCase | berry_lib/src/twitch/commands.rs:16-18 | "ping" and "test" are unchanged by lower-casing. |
| Commands.BuiltInCommands | berry_lib/src/twitch/commands.rs:38-57 | Exactly "!ping" and "!test" name a command, each its own. |
| Commands.NearMissesAreNotCommands | berry_lib/src/twitch/commands.rs:47-50 | "!PING", "!pingpong" and "!ping " name no command. |
| Commands.Reply | berry_lib/src/twitch/commands.rs:12-30 | "!ping" gets "Pong!" and "!test" gets "Hello from Rust!". Every other text gets no reply. |
| Commands.Execute | berry_lib/src/twitch/commands.rs:12-14 | Definition: "Pong!" for the ping command, and "Hello from Rust!" for the test command (lines 24-26). Reply states its contract. |
| Commands.NewHandler | berry_lib/src/twitch/commands.rs:38-44 | Definition: the ping and the test command, in that order. BuiltInCommands and Reply state its contract. |
| ChatBot.BotStep | berry_lib/src/twitch/bot.rs:25-33 | `Ok(None)` continues, a message is handled and WouldBlock sleeps 500 ms. Any other error ends the run with that error, and a panic crashes it. |
| ChatBot.HandleMessageSpec | berry_lib/src/twitch/bot.rs:37-45 | When the text names a command, one PRIVMSG with its reply is written. Otherwise the wire is unchanged. |
| ChatBot.BotRound | berry_lib/src/twitch/bot.rs:24-34 | A round consumes one read and never reports idling. |
| ChatBot.RunLoop | berry_lib/src/twitch/bot.rs:24-34 | Definition of the loop of run over the transcript. Bot.Listen is proved against it; RunWritesOnlyBotLines, StopsOnlyOnHardErrors, WouldBlockSleeps and HardErrorStops state its contract. |
| ChatBot.WritesOnlyBotLinesTransitive | berry_lib/src/twitch/bot.rs:24-34 | Appending only bot lines composes across rounds. |
| ChatBot.AppendBotLine | berry_lib/src/twitch/bot.rs:37-45 | Appending nothing or one bot line appends only bot lines. |
| ChatBot.HandleWritesBotLine | berry_lib/src/twitch/bot.rs:37-45 | Handling a message writes at most one command reply. |
| ChatBot.RunWritesOnlyBotLines | berry_lib/src/twitch/bot.rs:22-35 | After connecting, a run only appends the fixed PONG, "Pong!" and "Hello from Rust!" lines. |
| ChatBot.StopsOnlyOnHardErrors | berry_lib/src/twitch/bot.rs:28-32 | A run stops only on a non-WouldBlock I/O error or a parse error. |
| ChatBot.WouldBlockSleeps | berry_lib/src/twitch/bot.rs:28-31 | n WouldBlock reads sleep 500·n ms, write nothing and end idle. |
| ChatBot.PongWouldBlockSleeps | berry_lib/src/twitch/bot.rs:28-31 | A ping whose PONG write fails with WouldBlock sleeps 500 ms and the run reads on. |
| ChatBot.PongHardErrorStops | berry_lib/src/twitch/bot.rs:32 | A ping whose PONG write fails with another error ends the run with that error. |
| ChatBot.HardErrorStops | berry_lib/src/twitch/bot.rs:32 | A hard read error ends the run at once. |
| ChatBot.ShortPrivmsgStops | berry_lib/src/twitch/bot.rs:32 | A PRIVMSG line with fewer than four tokens ends the whole run with MessageParseError. |
| ChatBot.CommandAnswered | berry_lib/src/twitch/bot.rs:37-45 | A command line gets exactly one reply before the next read, and the run continues. |
| ChatBot.OtherTextIgnored | berry_lib/src/twitch/bot.rs:39 | A non-command chat line writes nothing. |
| ChatBot.Bot.constructor | berry_lib/src/twitch/bot.rs:13-17 | An unconnected client and the built-in commands. |
| ChatBot.Bot.HandleMessage | berry_lib/src/twitch/bot.rs:37-45 | The new stream is what HandleMessageSpec gives. |
| ChatBot.Bot.Run | berry_lib/src/twitch/bot.rs:22-35 | A connect error is returned with nothing read, with the failed write's error kind. Otherwise the run is RunLoop on the stream after the login lines. |
| ChatBot.Bot.Round | berry_lib/src/twitch/bot.rs:25-33 | This round's stream, stop and sleep are those BotRound gives. |
| ChatBot.Bot.Listen | berry_lib/src/twitch/bot.rs:24-34 | The loop ends as RunLoop ends. |
| ChatBot.Bot.Disconnect | berry_lib/src/twitch/bot.rs:47-49 | PART, then shutdown. A failed PART is the error, and so is a failed shutdown. |
| Service.ServiceStep | berry_lib/src/twitch/twitch_service.rs:31-40 | `Ok(None)` and every non-WouldBlock error continue, a message is handled and WouldBlock sleeps 100 ms. The loop never exits. |
| Service.ServiceRound | berry_lib/src/twitch/twitch_service.rs:30-41 | A round consumes one read. An empty transcript does nothing. |
| Service.ServiceHandleSpec | berry_lib/src/twitch/twitch_service.rs:45-67 | Definition: the command reply when moderation succeeds, and nothing otherwise. FailedModerationSilences and AnsweredWhateverTheVerdict state its contract. |
| Service.ServiceLoop | berry_lib/src/twitch/twitch_service.rs:28-42 | Definition of the service loop over a given number of rounds. TwitchService.Poll is proved against it; AtMostOneLinePerRound, WouldBlockSleeps and ReadErrorSkipped state its contract. |
| Service.ReadErrorSkipped | berry_lib/src/twitch/twitch_service.rs:37-39 | A hard read error is skipped and the loop carries on. |
| Service.WouldBlockSleeps | berry_lib/src/twitch/twitch_service.rs:34-36 | n WouldBlock reads sleep 100·n ms and write nothing. |
| Service.PongWouldBlockSleeps | berry_lib/src/twitch/twitch_service.rs:34-36 | A ping whose PONG write fails with WouldBlock sleeps 100 ms and the loop reads on. |
| Service.FailedModerationSilences | berry_lib/src/twitch/twitch_service.rs:63-65 | When moderation fails, a command message gets no reply. |
| Service.AnsweredWhateverTheVerdict | berry_lib/src/twitch/twitch_service.rs:51-61 | When moderation succeeds, a command gets its reply whether or not the message was flagged. |
| Service.OnlyModerationSuccessMatters | berry_lib/src/twitch/twitch_service.rs:50-65 | Two runs whose moderation calls succeed in the same rounds behave the same. |
| Service.RoundWritesAtMostOneLine | berry_lib/src/twitch/twitch_service.rs:30-41 | A round writes at most one line. |
| Service.AtMostOneLinePerRound | berry_lib/src/twitch/twitch_service.rs:28-42 | n rounds write at most n lines. |
| Service.TwitchService.constructor | berry_lib/src/twitch/twitch_service.rs:14-21 | No users and no bot. |
| Service.TwitchService.ConnectUser | berry_lib/src/twitch/twitch_service.rs:69-73 | Maps the channel to the token, replacing any earlier one. |
| Service.TwitchService.HandleMessage | berry_lib/src/twitch/twitch_service.rs:45-67 | The stream is what ServiceHandleSpec gives: nothing on failed moderation, otherwise the bot's reply. |
| Service.TwitchService.Round | berry_lib/src/twitch/twitch_service.rs:30-41 | This round's stream, crash flag and sleep are those ServiceRound gives. |
| Service.TwitchService.Poll | berry_lib/src/twitch/twitch_service.rs:28-42 | The loop rounds end as ServiceLoop ends. |
| Service.TwitchService.Run | berry_lib/src/twitch/twitch_service.rs:23-43 | Stores a fresh, never-connected bot. The loop then reads `Ok(None)` every time: no crash, no sleep, no write. |
| BotStore.Lookup | berry_lib/src/twitch/bot_storage.rs:14-16 | Returns some bot exactly when the channel has one, and then that bot. |
| BotStore.LookupAfterAdd | berry_lib/src/twitch/bot_storage.rs:10-12 | After an add the channel holds the new bot. Other channels are unchanged. |
| BotStore.LookupAfterRemove | berry_lib/src/twitch/bot_storage.rs:18-20 | After a remove the channel has no bot, other channels are unchanged, and removing an absent one changes nothing. |
| BotStore.BotStorage.constructor | berry_lib/src/twitch/bot_storage.rs:6-8 | An empty registry. |
| BotStore.BotStorage.AddBot | berry_lib/src/twitch/bot_storage.rs:10-12 | Inserts the bot, replacing any earlier one. |
| BotStore.BotStorage.GetBot | berry_lib/src/twitch/bot_storage.rs:14-16 | The stored bot of the channel, if any. |
| BotStore.BotStorage.RemoveBot | berry_lib/src/twitch/bot_storage.rs:18-20 | Drops the channel's entry. |
| Manager.AfterConnect | berry_lib/src/twitch/bot_manager.rs:15-32 | The channel is registered afterwards. Existing entries keep their task. A new channel gets a task for its token. |
| Manager.ConnectAgainKeepsTask | berry_lib/src/twitch/bot_manager.rs:16 | Connecting a channel twice, with any token, changes nothing the second time. |
| Manager.ConnectNeverRemoves | berry_lib/src/twitch/bot_manager.rs:15-32 | No sequence of connects removes or replaces a task. |
| Manager.BotManager.constructor | berry_lib/src/twitch/bot_manager.rs:9-13 | No tasks. |
| Manager.BotManager.ConnectBot | berry_lib/src/twitch/bot_manager.rs:15-32 | The new map is AfterConnect of the old one. |
| AuthMiddleware.ToStr | src/middleware/auth_middleware.rs:79 | The header is text exactly when every byte is visible ASCII or tab, and then byte for byte. |
| AuthMiddleware.CheckToken | src/middleware/auth_middleware.rs:130-133 | Every token passes. |
| AuthMiddleware.ValidateToken | src/middleware/auth_middleware.rs:100-127 | Definition: at least two whitespace-separated words, both non-empty, and check_token. ValidateTokenIff states its contract. |
| AuthMiddleware.CheckAuthentication | src/middleware/auth_middleware.rs:76-98 | Definition: None for a missing or unreadable header, true on a whitelisted route, otherwise ValidateToken. CallIff and NoHeaderRefused state its contract. |
| AuthMiddleware.Call | src/middleware/auth_middleware.rs:45-71 | Definition: forward exactly on Some(true), else 401. CallIff states its contract. |
| AuthMiddleware.ValidateTokenIff | src/middleware/auth_middleware.rs:100-127 | A header is valid exactly when it has at least two whitespace-separated words. The emptiness test never fires. |
| AuthMiddleware.AnySchemeAccepted | src/middleware/auth_middleware.rs:113-122 | Any two words pass, whatever the first says. |
| AuthMiddleware.CallIff | src/middleware/auth_middleware.rs:45-98 | A request is forwarded exactly when its header is readable and it is on /auth/login or /auth/register, or the header has two words. |
| AuthMiddleware.NoHeaderRefused | src/middleware/auth_middleware.rs:79 | A missing or unreadable header is refused, even on whitelisted routes. |
| ApiResponses.New | berry_lib/src/api/api_response.rs:21-31 | Stores the arguments unchanged. |
| ApiResponses.Status | berry_lib/src/api/api_response.rs:41-47 | Definition: the given status, else 400 with an error, else 200. StatusRule states its contract. |
| ApiResponses.RespondTo | berry_lib/src/api/api_response.rs:40-59 | Definition: the JSON response with Status, or a bare 500 when serialization fails. StatusRule, SerializationFailure and BodyIgnoresStatusCode state its contract. |
| ApiResponses.StatusRule | berry_lib/src/api/api_response.rs:40-59 | The status is the given code, else 400 with an error, else 200. The body is the JSON of data and error. |
| ApiResponses.SerializationFailure | berry_lib/src/api/api_response.rs:51-54 | A failed serialization gives a bare 500. |
| ApiResponses.BodyIgnoresStatusCode | berry_lib/src/api/api_response.rs:13 | The status code never affects the body. |
| Jwt.ToAlgorithm | berry_lib/src/auth/jwt.rs:22-36 | Each algorithm maps to its same-named library algorithm, except ES512, which panics. |
| Jwt.ToAlgorithmInjective | berry_lib/src/auth/jwt.rs:22-36 | Distinct algorithms never map to the same library algorithm. |
| Jwt.NewConfig | berry_lib/src/auth/jwt.rs:54-57 | Panics exactly when JWT_SECRET is unset. Otherwise the config holds that secret and the algorithm. |
| Jwt.GenerateToken | berry_lib/src/auth/jwt.rs:59-66 | Encodes with an HS256 header and the secret. A failure is wrapped as TokenCreationError. |
| Jwt.GenerateTokenIgnoresAlgorithm | berry_lib/src/auth/jwt.rs:59-66 | The configured algorithm does not affect token creation. |
| Jwt.ValidateToken | berry_lib/src/auth/jwt.rs:68-86 | Decodes with the secret, accepting only the configured algorithm. Every failure becomes a TokenValidationError. |
| Jwt.Checked | berry_lib/src/auth/jwt.rs:89 | An unsigned 64-bit result when it fits, otherwise the overflow panic. |
| Jwt.GenerateExpTime | berry_lib/src/auth/jwt.rs:87-90 | Definition: the clock as usize plus days·86400, with debug-build overflow checks. ExpTimeIsNowPlusDays and ExpTimeAfterEpoch state its contract. |
| Jwt.ExpTimeIsNowPlusDays | berry_lib/src/auth/jwt.rs:87-90 | The expiry is (now mod 2^64) + days·86400. It panics exactly when that does not fit in a usize. |
| Jwt.ExpTimeAfterEpoch | berry_lib/src/auth/jwt.rs:87-90 | For a clock after the epoch and a stay that fits, the expiry is now + days·86400. |
| TwitchUserData.ValueFront | berry_lib/src/twitch/twitch_user_data.rs:43 | A digit string's value is its first digit times the place value, plus the rest. |
| TwitchUserData.ParseI32 | berry_lib/src/twitch/twitch_user_data.rs:43 | A success is within the i32 range. The empty string is the Empty error. |
| TwitchUserData.Accumulate | berry_lib/src/twitch/twitch_user_data.rs:43 | A success stays in the i32 range. AccumulatePositive, AccumulateNegative and AccumulateOkAllDigits state the rest of its contract. |
| TwitchUserData.AccumulatePositive | berry_lib/src/twitch/twitch_user_data.rs:43 | Accumulating digits gives their value, or PosOverflow exactly when it exceeds i32::MAX. |
| TwitchUserData.AccumulateNegative | berry_lib/src/twitch/twitch_user_data.rs:43 | The same for a negative number, with NegOverflow below i32::MIN. |
| TwitchUserData.ParseDigits | berry_lib/src/twitch/twitch_user_data.rs:43 | Plain, '+' and '-' digit strings parse to their value or the matching overflow error. |
| TwitchUserData.AccumulateOkAllDigits | berry_lib/src/twitch/twitch_user_data.rs:43 | The digit loop rejects any string with a non-digit. |
| TwitchUserData.ParseI32Accepts | berry_lib/src/twitch/twitch_user_data.rs:43 | Whatever parses is an optional '+' or '-' then at least one digit, and its value is the digits' value with that sign. |
| TwitchUserData.Digits | berry_lib/src/twitch/twitch_user_data.rs:43 | The decimal digits of n: non-empty, all digits, value n. |
| TwitchUserData.ShowI32 | berry_lib/src/twitch/twitch_user_data.rs:43 | Definition: i32 printing in decimal, used for the round trip. ParseShowRoundTrip states its contract. |
| TwitchUserData.ParseShowRoundTrip | berry_lib/src/twitch/twitch_user_data.rs:43 | Every i32 printed in decimal parses back to itself. |
| TwitchUserData.OutOfRangeAndGarbage | berry_lib/src/twitch/twitch_user_data.rs:43 | 2147483648 overflows, -2147483649 underflows, and "12a" and "-" are invalid. |
| TwitchUserData.StringOrNumber | berry_lib/src/twitch/twitch_user_data.rs:38-46 | `null`, a boolean or a number is `None`. A string yields its i32 or the parse error. An array or an object fails the decode, because the string deserializer leaves it unconsumed. |
| TwitchUserData.ViewCountForms | berry_lib/src/twitch/twitch_user_data.rs:38-46 | A string count round-trips: "123" gives Some(123). The JSON number 123 gives None. An array holding the count fails the decode. |
| TwitchUserData.Display | berry_lib/src/twitch/twitch_user_data.rs:63-67 | Definition: the write! format with the five fields. DisplayShowsFiveFields states its contract. |
| TwitchUserData.DisplayShowsFiveFields | berry_lib/src/twitch/twitch_user_data.rs:63-67 | The display text depends only on unxid, twitch_id, twitch_login, twitch_email and app_created. |
| TwitchAccessToken.Require | berry_lib/src/twitch/twitch_access_token.rs:56-60 | The variable's value, or the panic message when it is unset. |
| TwitchAccessToken.ConstructTwitchAccessUrl | berry_lib/src/twitch/twitch_access_token.rs:52-72 | Definition as written. UrlFromEnvironment, LocalModeIrrelevant, MissingVariablePanics and CodeVerbatim state its contract. |
| TwitchAccessToken.ConstructTwitchAccessUrlIntended | berry_lib/src/twitch/twitch_access_token.rs:55-71 | Definition under the corrected reading of line 58. IntendedUrlHonoursLocalMode states its contract. |
| TwitchAccessToken.UrlFromEnvironment | berry_lib/src/twitch/twitch_access_token.rs:52-72 | With the three variables set, it builds the token URL from them and the code. The redirect URI is always TWITCH_REDIRECT_URI. |
| TwitchAccessToken.LocalModeIrrelevant | berry_lib/src/twitch/twitch_access_token.rs:55-58 | LOCAL_MODE, set to anything or unset, never changes the outcome. |
| TwitchAccessToken.MissingVariablePanics | berry_lib/src/twitch/twitch_access_token.rs:56-60 | Fails exactly when one of the three is unset, with the message of the first one missing. The "_LOCAL" message never appears. |
| TwitchAccessToken.CodeVerbatim | berry_lib/src/twitch/twitch_access_token.rs:68-71 | The code appears verbatim, not percent-encoded, after "&code=". |
| TwitchAccessToken.LocalRedirectIgnored | berry_lib/src/twitch/twitch_access_token.rs:56-66 | In local mode with distinct redirect URIs, the code as written sends the non-local URI where the intended definition sends the local one. |
| TwitchAccessToken.IntendedUrlHonoursLocalMode | berry_lib/src/twitch/twitch_access_token.rs:55-71 | Under the corrected reading, the URL carries TWITCH_REDIRECT_URI_LOCAL exactly when LOCAL_MODE is "true", and TWITCH_REDIRECT_URI otherwise. |

## Findings

| source | as written | input that shows it | evidently intended | confidence | as-written member | corrected member |
|---|---|---|---|---|---|---|
| berry_lib/src/twitch/twitch_access_token.rs:57-58 | The local redirect URI is read from TWITCH_REDIRECT_URI, so LOCAL_MODE=true changes nothing. | LOCAL_MODE=true, TWITCH_REDIRECT_URI=https://a, TWITCH_REDIRECT_URI_LOCAL=http://b: the URL ends in redirect_uri=https://a | Read TWITCH_REDIRECT_URI_LOCAL, as the panic message says, and send it in local mode | high, not executed | TwitchAccessToken.LocalRedirectIgnored | TwitchAccessToken.IntendedUrlHonoursLocalMode |

No other part of this model calls the URL builder. `ConstructTwitchAccessUrl` keeps the behaviour as written, and `ConstructTwitchAccessUrlIntended` is the corrected definition.

## Left out

- Transport.ReadSpec: a read after `shutdown(Both)` returns 0 bytes in Rust, while the model still hands out the transcript. No operation of the core reads after its own shutdown.
- Sockets, DNS and TLS are left out; a socket is a transcript of reads plus scripted outcomes for each write and for the shutdown. `connect`'s success is a parameter (`reachable`). `set_nonblocking` and `try_clone` are taken to succeed.
- Transport.Stream.Write: a failed write puts nothing on the wire. `write_all` may have sent part of the bytes before the error, and that partial write is not modelled.
- `read_line` and the 512-byte `read` with `from_utf8_lossy` are not modelled byte by byte: each transcript entry is the text of one read.
- Reading from an exhausted transcript returns `Ok(None)`. The source loops would spin for ever there; `RunLoop` reports this as `Idle`, `Listen` as its end, and `ServiceLoop` runs a given number of rounds.
- Time is left out: sleeps are counted in milliseconds, not performed, and the clock reading in `generate_exp_time` is a parameter.
- Printing and logging (`println!`, `eprintln!`, `colored`) are left out; a logged error changes no state.
- Concurrency is left out:
  - the `Arc<Mutex<..>>` locking;
  - tokio tasks and `await`;
  - the `DashMap` registry's thread safety;
  - the running of spawned bot tasks; a task is recorded by what it was started with.
- The broadcast channel is modelled as its receiver count and the list of delivered messages. Its capacity of 100 and lagging receivers are left out.
- `handle_input_check` (the HTTP call to OpenAI) is left out, along with the `OPEN_AI_KEY` panic and the request body: its outcome is a per-round input of `Service`.
- Moderation.RoundToThousandths: scores are exact reals, not `f64`. Floating-point rounding error is not modelled.
- Cryptography is not modelled: `encode` and `decode` of `jsonwebtoken` are function parameters, and so is the JSON serializer of the response envelope.
- The JSON deserializer is reduced to the value kinds `string_or_number` sees, and to whether serde_json consumes a value that `String::deserialize` rejects. Only arrays and objects are left unconsumed, and they end the decode with "expected `,` or `}`". Missing fields and the decoding of the other fields are not modelled.
- Jwt.GenerateExpTime follows a debug build, where overflow panics; a release build wraps instead, which is not modelled.
- `Bot::new` and `TwitchAPI::new` cannot fail in the source, so the model's constructors have no error path.
- The source does not compile as written in two places, and the model reads each as its evident intent:
  - `TwitchService` uses the private fields `bot.api` and `bot.command_handler`; the model lets it use them.
  - `BotManager` writes `bot.run().await`, but `Bot::run` is a public, synchronous function returning a `Result`, so there is nothing to await. The model's `AfterConnect` records the task by the token and channel it was started with and does not run it.
- The middleware starts the inner service before the decision. Only the decision to forward or refuse is modelled.
- The OpenAI request and response plumbing beyond the fields used is not part of this model: the HTTP client, headers and the JSON of the request body.
- The HTTP route handlers, database access and user lookup (`get_user_from_twitch`) are not part of this model.
