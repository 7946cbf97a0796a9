# GoodFriend event stream: a verified model

GoodFriend lets players of a game tell their friends when they log in or out. This project models the core of both sides in Dafny and proves properties of the model.

The plugin side (C#) has three clients that subscribe to the API's event stream and reconnect when they lose it:
- `StreamClient<T>` reads binary MessagePack frames. It has five connection states and a reconnect timer whose interval grows linearly up to a maximum.
- `SseClient<T>` reads server-sent-event text lines. Its reconnect timer is optional and has a fixed interval.
- The older `APIClient` uses two flags, a one-minute timer and a rate-limit clock fed by the API's 429 responses.

The plugin side also builds the login-state POST request (`PostPlayerLoginStateRequest`).

The API side (Rust, axum) has:
- two header extractors: the hashed content id, and the optional client key;
- three handlers that validate a request and push one message onto a tokio broadcast channel: login state, binary event and announcement;
- two stream routes that turn the channel into a response body.

## How the model is built

- **Clients are classes.** Each client is a `class` with the source's state fields. Everything it shows its observers is appended to a notification log, and every call it makes on its `HttpClient` to a transport log. A ghost `View()` of those fields is tied, method by method, to a pure transition function: `AfterConnect`, `AfterTimerElapse`, `AfterDispose`, `AfterOpenConnection` and so on. The lemmas about those functions state what the source promises.
- **Event wiring is a flag.** The constructors wire handlers to the clients' own events, and Dispose unwires them (StreamClient.cs:133-163, SseClient.cs:115-148, APIClient.cs:247-269). The model reduces this to one `handlersWired` flag: raising an event appends to the log, then runs the wired handlers.
- **Connection attempts read a given list.** One attempt consumes a finite list of read outcomes: a frame or line, end of stream, a read that throws, or the owner calling `Disconnect`/`CloseSSEStream` while the loop waits.
  - When the list runs out, the loop is still waiting for data, and the state stays `Connected`.
  - Each read loop is a `while` method over that list. Its result is stated by a recursive function of the list (`ReadLoop`, `SseLoop`, `ApiLoop`).
- **Decoders are parameters.** The MessagePack, System.Text.Json, Newtonsoft, `HttpUtility.UrlDecode` and `rmp_serde` decoders are function parameters; a decoder that throws returns `None` or an error variant.
- **Time is passed in.** Time is whole milliseconds, and the current time is a parameter.
- **Channels and streams.** The broadcast channel is a class holding what the receivers were given and the receiver count. Its `Send` has tokio's semantics: it fails exactly when there is no receiver. The stream routes are functions on sequences built from `filter_map`, `take_while` and `map`. The `merge` of heartbeat ticks with broadcast items is a given interleaving.

Three quirks of the code are modelled as written, and a lemma exhibits each:
- **The backoff can overshoot the maximum** (`StreamClient.cs:183-186`). The increment is applied whenever the interval is still below the maximum, so the interval can pass it by less than one increment: 1 s, 2 s, 3 s with a 2.5 s maximum. The model follows the code: `IntervalOvershootsMaximum`.
  - The settings document `ReconnectDelayMax` as "the maximum amount of time to wait between reconnection attempts" (`StreamClient.cs:44`). The code does not keep to that bound.
  - `IntervalAfterLinear`, `IntervalAfterFrozen` and `IntervalAfterWithinBound` state what the code guarantees instead.
- **The login-state request refuses the documented lengths.** The `ContentIdHash` and `ContentIdSalt` init accessors throw exactly when the array has the length their documentation requires (32 and 16 bytes), and accept every other length: `DocumentedLengthsRefused`.
- **The two event declarations disagree on the salt size.** `event.rs` declares the salt `[u8; 8]`, while the `EventData` it is copied into declares `[u8; 16]`. The copy at `event.rs:30` puts an `[u8; 8]` into an `[u8; 16]` field, which Rust rejects as a type mismatch, so the crate as given does not build. Each declaration is modelled on its own: `CopiedSaltOffDeclaredSize`.

A fatal deserialisation error in the SSE loop ends reading. If the stream then turns out to be still open, the client stays `Connected` with nothing reading and nothing reported (`FatalThenLineAbandons`).

## Model

| member | source | states |
|---|---|---|
| Primitives.Trim | src/Client/Http/SseClient.cs:213 | Trimming gives the empty text exactly when the input is all Unicode white space; otherwise the result neither starts nor ends with white space. |
| Primitives.TrimmedIsNeverPadded | src/Client/Http/SseClient.cs:213 | No text that starts or ends with white space is the trim of anything. |
| Primitives.RemoveAll | src/Client/Http/SseClient.cs:219 | Replacing a pattern by "" never lengthens the text, and leaves a text without the pattern unchanged. |
| Primitives.RemoveAllLeadingOccurrence | src/Client/Http/SseClient.cs:219 | A leading occurrence of the pattern is removed without trace. |
| Primitives.RemoveAllLeavesNewOccurrence | src/Client/Http/SseClient.cs:219 | One replacement pass can create a new "data:": "ddata:ata:" becomes "data:". |
| Primitives.Utf8Length | src/Api/src/routes/events/update_loginstate.rs:24-25 | A string's byte length lies between its character count and four times it. |
| Primitives.AsciiUtf8Length | src/Api/src/extractors/content_id.rs:43-44 | For ASCII text, the byte length equals the character count. |
| HttpStreamClient.NextInterval | src/Client/Http/StreamClient.cs:183-186 | The interval never decreases. It is unchanged exactly when it is already at or above the maximum, or the increment is zero. From below the maximum, it ends below maximum plus increment. |
| HttpStreamClient.IntervalAfterWithinBound | src/Client/Http/StreamClient.cs:183-186 | After any number of failed reconnects, the interval is at least the minimum, and is either the minimum or below maximum plus increment. |
| HttpStreamClient.IntervalAfterLinear | src/Client/Http/StreamClient.cs:183-186 | While below the maximum, the interval after n failures is min + n·increment. |
| HttpStreamClient.IntervalAfterFrozen | src/Client/Http/StreamClient.cs:183-186 | Once at or above the maximum, the interval never changes again. |
| HttpStreamClient.IntervalOvershootsMaximum | src/Client/Http/StreamClient.cs:183-186 | With min 1000, max 2500 and increment 1000, two failures give 3000: the maximum is not a cap. |
| HttpStreamClient.ClassifyFrame | src/Client/Http/StreamClient.cs:246-251 | A frame is a heartbeat exactly when it is the single byte 0x90. Otherwise it is a message exactly when the decoder accepts it, and the message is the decoded value. |
| HttpStreamClient.ReadLoop | src/Client/Http/StreamClient.cs:237-259 | The loop raises at most one notification per read, and only heartbeats and messages. |
| HttpStreamClient.ReadTurn | src/Client/Http/StreamClient.cs:239-258 | One read lets the loop go on exactly when it is a heartbeat or a frame that decodes, and then it raises exactly one heartbeat or message. |
| HttpStreamClient.ReadLoopSuspendedIff | src/Client/Http/StreamClient.cs:237-259 | The loop keeps waiting exactly when every read was some frame other than an undecodable one, and then it raised one notification per frame. |
| HttpStreamClient.ReadLoopAppend | src/Client/Http/StreamClient.cs:237-259 | Reading in two parts raises the notifications of both parts, in order. |
| HttpStreamClient.ReadLoopHeartbeatsOnly | src/Client/Http/StreamClient.cs:246-250 | Heartbeat frames raise only heartbeats, never a message, and the loop keeps reading. |
| HttpStreamClient.ReadLoopMessagesAreDecodedFrames | src/Client/Http/StreamClient.cs:251-252 | Every message raised is the decoding of some non-heartbeat frame that was read. |
| HttpStreamClient.HeartbeatThenTwoRecords | src/Client/Http/StreamClient.cs:237-259 | A heartbeat and two records raise a heartbeat and the two messages, in order. |
| HttpStreamClient.SessionOutcome | src/Client/Http/StreamClient.cs:228-270 | An attempt ends in Exception exactly when the open failed or the loop broke out while Connected; then exactly one exception is raised, last, and the timer runs. Otherwise the state is Connected or Disconnected, with the timer stopped at the minimum and no exception raised. |
| HttpStreamClient.TimerElapseOpensAtMostOneStream | src/Client/Http/StreamClient.cs:170-187 | Outside Exception, a timer tick only stops the timer: no state change, no notification, no request. In Exception it issues exactly one stream request. |
| HttpStreamClient.TransitionsKeepBackoffBound | src/Client/Http/StreamClient.cs:170-214 | Connect, a timer tick, Disconnect and Dispose all keep the interval within the backoff bound. |
| HttpStreamClient.FailedReconnectsBackOff | src/Client/Http/StreamClient.cs:180-186 | After n ticks whose stream cannot be opened, the client is still in Exception, with the timer running at the interval after n failures. |
| HttpStreamClient.SuccessfulReconnectResetsInterval | src/Client/Http/StreamClient.cs:200-204 | A reconnect that opens the stream leaves the client Connected, with the timer stopped at the minimum. |
| HttpStreamClient.ImmediatelyClosedStream | src/Client/Http/StreamClient.cs:261-264 | A stream that ends at once raises Connected, then "Connection to stream suddenly closed.", and leaves the client in Exception with the timer started. |
| HttpStreamClient.StreamClient.constructor | src/Client/Http/StreamClient.cs:118-130 | Only for a minimum delay the timer accepts (1 to Int32.MaxValue ms). A new client is Disconnected with its handlers wired, the timer stopped at the minimum, and empty logs. |
| HttpStreamClient.StreamClient.Notify | src/Client/Http/StreamClient.cs:194-214 | Observers see the event. Connected and Disconnected stop the timer and reset it to the minimum; an exception starts it. |
| HttpStreamClient.StreamClient.Disconnect | src/Client/Http/StreamClient.cs:277-288 | Disconnect throws when disposed and does nothing when already down. Otherwise it cancels pending requests, goes Disconnected and raises Disconnected. |
| HttpStreamClient.StreamClient.BeginConnect | src/Client/Http/StreamClient.cs:222-232 | The synchronous part of Connect: it throws when disposed and does nothing while Connecting or Connected. Otherwise it goes Connecting and issues the stream request. |
| HttpStreamClient.StreamClient.FinishConnect | src/Client/Http/StreamClient.cs:232-270 | The new state is AfterSession of the old one. |
| HttpStreamClient.StreamClient.RunReadLoop | src/Client/Http/StreamClient.cs:237-259 | The while loop raises exactly ReadLoop's notifications. It reports a break and its cause, or leaves the client Disconnected when Disconnect was called. |
| HttpStreamClient.StreamClient.ReadOne | src/Client/Http/StreamClient.cs:239-258 | One pass of the loop body does what ReadTurn says, raises its notification when the loop goes on, and changes nothing else. |
| HttpStreamClient.StreamClient.Connect | src/Client/Http/StreamClient.cs:220-271 | Connect throws when disposed and changes nothing while Connecting or Connected. Otherwise the new state is AfterConnect of the old one. |
| HttpStreamClient.StreamClient.HandleReconnectTimerElapse | src/Client/Http/StreamClient.cs:170-187 | The new state is AfterTimerElapse of the old one: outside Exception the timer is stopped and reset; in Exception the client reconnects and the interval is incremented. |
| HttpStreamClient.StreamClient.TimerElapsed | src/Client/Http/StreamClient.cs:126 | A tick reaches the handler only while the client is not disposed. |
| HttpStreamClient.StreamClient.Dispose | src/Client/Http/StreamClient.cs:133-163 | Dispose is idempotent. It unwires the handlers, stops the timer, disconnects, then cancels and disposes the HttpClient. |
| HttpSseClient.Payload | src/Client/Http/SseClient.cs:219 | The payload is no longer than the line. |
| HttpSseClient.PayloadIsTrimmed | src/Client/Http/SseClient.cs:219 | The payload is already trimmed: trimming it again changes nothing. |
| HttpSseClient.ClassifyLine | src/Client/Http/SseClient.cs:210-238 | A line is a heartbeat exactly when its decoded, trimmed text is ":". It is skipped exactly when its payload is empty. Otherwise it is a message when the payload deserialises; a JsonException skips it; any other exception is fatal. |
| HttpSseClient.DataLineDelivers | src/Client/Http/SseClient.cs:219-228 | A "data:" line whose JSON contains no further "data:" delivers the deserialised JSON. |
| HttpSseClient.PaddedCommentIsHeartbeat | src/Client/Http/SseClient.cs:213-217 | " :\r" counts as a heartbeat. |
| HttpSseClient.SseLoop | src/Client/Http/SseClient.cs:208-239 | The loop raises at most one notification per read, and only heartbeats and messages. |
| HttpSseClient.SseTurnOf | src/Client/Http/SseClient.cs:210-238 | One read that lets the loop go on raises at most one notification, a heartbeat or a message; one that ends the loop never leaves it reading. |
| HttpSseClient.SseLoopAppend | src/Client/Http/SseClient.cs:208-239 | Reading in two parts raises the notifications of both parts, in order. |
| HttpSseClient.SkippedLinesAreSilent | src/Client/Http/SseClient.cs:220-233 | Blank and malformed lines raise nothing and do not stop the loop. |
| HttpSseClient.SseMessagesComeFromLines | src/Client/Http/SseClient.cs:227-228 | Every message raised comes from a line the classifier took for a message. |
| HttpSseClient.SseMessagesAreDeserializedPayloads | src/Client/Http/SseClient.cs:210-228 | Every message raised is the deserialised, non-empty payload of a line that was not a comment. |
| HttpSseClient.FatalThenLineAbandons | src/Client/Http/SseClient.cs:234-245 | A fatal error followed by more data ends the loop with nothing reported, leaving the client Connected. |
| HttpSseClient.FatalThenEndReports | src/Client/Http/SseClient.cs:234-245 | A fatal error followed by the end of the stream reports that error. |
| HttpSseClient.SseSessionOutcome | src/Client/Http/SseClient.cs:197-251 | For every attempt, including one the reconnect timer started while still running: it ends in Exception exactly when the open failed or the stream ended while Connected; then exactly one exception is raised, last, and the timer runs exactly when there is one. Otherwise no exception is raised and no timer runs. |
| HttpSseClient.SseTimerElapseOutcome | src/Client/Http/SseClient.cs:155-163 | Outside Exception a tick only stops the timer. In Exception it issues exactly one stream request; a failed attempt leaves Exception with the timer running and one more exception, last; any other outcome stops the timer and raises no exception. |
| HttpSseClient.SseStreamShape | src/Client/Http/SseClient.cs:205-251 | Once the stream is open, whether or not the timer was running, the notifications only grow; the client ends in Exception exactly when the loop ended in error, with the timer running exactly when there is one; otherwise it is Connected or Disconnected with no timer. |
| HttpSseClient.SseStreamCounts | src/Client/Http/SseClient.cs:205-251 | Once the stream is open, whatever the timer, exactly one exception is added when the loop ended in error, and none otherwise. |
| HttpSseClient.SseImmediatelyClosedStream | src/Client/Http/SseClient.cs:241-245 | A stream that ends at once raises Connected and then the suddenly-closed exception, and leaves the client in Exception. |
| HttpSseClient.SseClient.constructor | src/Client/Http/SseClient.cs:99-112 | The handlers are wired exactly when a timer is supplied. |
| HttpSseClient.SseClient.Notify | src/Client/Http/SseClient.cs:170-182 | Observers see the event. A wired client stops its timer on Connected and Disconnected, and starts it on an exception. |
| HttpSseClient.SseClient.Disconnect | src/Client/Http/SseClient.cs:258-270 | Disconnect throws when disposed and does nothing when already down. Otherwise it goes Disconnected and raises Disconnected, and it cancels no request. |
| HttpSseClient.SseClient.Connect | src/Client/Http/SseClient.cs:188-252 | Connect throws when disposed and changes nothing while Connecting or Connected. Otherwise the new state is SseAfterConnect of the old one. |
| HttpSseClient.SseClient.RunLoop | src/Client/Http/SseClient.cs:208-245 | The while loop raises exactly SseLoop's notifications and ends as SseLoop does. |
| HttpSseClient.SseClient.ReadOne | src/Client/Http/SseClient.cs:210-238 | One pass of the loop body does what SseTurnOf says, raises its notification when the loop goes on, and changes nothing else. |
| HttpSseClient.SseClient.TimerElapsed | src/Client/Http/SseClient.cs:155-163 | Outside Exception, a tick stops the timer; in Exception it reconnects. A client without wired handlers ignores ticks. |
| HttpSseClient.SseClient.Dispose | src/Client/Http/SseClient.cs:115-148 | Dispose is idempotent. It stops the timer, disconnects, then cancels and disposes the HttpClient. |
| PluginApiClient.RateLimitAfter | GoodFriend.Plugin/Types/APIClient.cs:195-215 | A 429 sets the reset time from ratelimit-reset, else from retry-after, else to one minute ahead. Any other status keeps the previous reset time. A header int.Parse rejects is an error. |
| PluginApiClient.RateLimitHeaderWins | GoodFriend.Plugin/Types/APIClient.cs:202-213 | ratelimit-reset takes precedence over retry-after. |
| PluginApiClient.WaitedUntilBounds | GoodFriend.Plugin/Types/APIClient.cs:319-323 | The wait ends at the first one-second poll at or past the reset time, and at once when the reset time has passed. |
| PluginApiClient.ClassifyApiLine | GoodFriend.Plugin/Types/APIClient.cs:336-351 | A line is skipped exactly when it is a comment or Newtonsoft returns null. It is delivered exactly when it is not a comment and its stripped, trimmed text parses, and then it carries that value. It is unparsable exactly when the parser throws. |
| PluginApiClient.ApiDataLineDelivers | GoodFriend.Plugin/Types/APIClient.cs:336-351 | A decoded line "data: " + json, with no further "data: " in json, delivers what Newtonsoft makes of the trimmed json. |
| PluginApiClient.UnspacedDataPrefixReachesParser | GoodFriend.Plugin/Types/APIClient.cs:344 | Only "data: " with its space is stripped: "data:{}" reaches Newtonsoft whole, and when it throws the line is unparsable. |
| PluginApiClient.ApiLoop | GoodFriend.Plugin/Types/APIClient.cs:333-353 | The loop raises at most one event per read, and only data events. |
| PluginApiClient.ApiLoopDeliversInOrder | GoodFriend.Plugin/Types/APIClient.cs:333-353 | While the loop reads on, it raises exactly one data event per payload line, in order. |
| PluginApiClient.ApiLoopEmitsFromLines | GoodFriend.Plugin/Types/APIClient.cs:333-353 | Every data event raised carries the payload of some line that was read. |
| PluginApiClient.ApiMessagesAreDeserializedPayloads | GoodFriend.Plugin/Types/APIClient.cs:333-353 | With the client's classifier, every data event is what Newtonsoft made of the stripped, trimmed text of a line that was not a comment. |
| PluginApiClient.UnparsableLineEndsLoop | GoodFriend.Plugin/Types/APIClient.cs:346 | A payload the deserializer throws on ends the connection with an error. |
| PluginApiClient.ApiLoopAppendReading | GoodFriend.Plugin/Types/APIClient.cs:333-353 | Reading in two parts raises the events of both parts, in order. |
| PluginApiClient.ConnectionOutcome | GoodFriend.Plugin/Types/APIClient.cs:302-369 | On a live client (handlers wired, HttpClient not disposed), an attempt never leaves the client both connected and connecting, and always clears connecting. The reconnect timer runs exactly when the attempt ended with a connection error, and then the client is not connected. |
| PluginApiClient.StreamRequestWaitsForRateLimit | GoodFriend.Plugin/Types/APIClient.cs:315-327 | The root request comes first. The stream request follows, issued at the first poll at or after the updated reset time. |
| PluginApiClient.DisposedAttemptStaysConnecting | GoodFriend.Plugin/Types/APIClient.cs:307-368 | After Dispose, an attempt sets connecting, sends nothing, reports the disposed HttpClient as a connection error, and leaves connecting set because no handler is wired; every later attempt then returns at once. |
| PluginApiClient.CleanEndDoesNotReconnect | GoodFriend.Plugin/Types/APIClient.cs:355-358 | A clean end of stream closes the connection without an error and without a reconnect, with the status recorded as 200. |
| PluginApiClient.MetadataGuards | GoodFriend.Plugin/Types/APIClient.cs:374-407 | While rate limited, the request sends nothing and reports a 429. On a disposed HttpClient it sends nothing and reports the exception with no response. A value is returned exactly for a success status and a parsed body on a live client. No connection field changes. |
| PluginApiClient.ApiClient.constructor | GoodFriend.Plugin/Types/APIClient.cs:231-242 | A new client has its handlers wired, both flags clear and its reset time at the start time. |
| PluginApiClient.ApiClient.Notify | GoodFriend.Plugin/Types/APIClient.cs:91-121 | Established, Closed and Error set the flags, cancel pending requests, and stop or start the timer. Established also records 200. |
| PluginApiClient.ApiClient.HandleRatelimitAndStatuscode | GoodFriend.Plugin/Types/APIClient.cs:195-215 | Records the status, and sets the reset time as RateLimitAfter does. It fails exactly when a header does not parse. |
| PluginApiClient.ApiClient.WaitForRateLimit | GoodFriend.Plugin/Types/APIClient.cs:322 | The polling loop stops at WaitedUntil: at or past the reset time, within a second of it, and a whole number of seconds after the start. |
| PluginApiClient.ApiClient.CancelPendingRequests | GoodFriend.Plugin/Types/APIClient.cs:220 | Cancels pending requests, stops the timer and clears connecting. It throws on a disposed HttpClient. |
| PluginApiClient.ApiClient.CloseSSEStream | GoodFriend.Plugin/Types/APIClient.cs:289-297 | Throws when not connected; otherwise raises Closed. |
| PluginApiClient.ApiClient.HandleConnectionFailure | GoodFriend.Plugin/Types/APIClient.cs:360-368 | Closes the stream if it is connected, then raises the error. |
| PluginApiClient.ApiClient.OpenSSEStreamConnection | GoodFriend.Plugin/Types/APIClient.cs:302-369 | Does nothing while connecting; otherwise the new state is AfterOpenConnection of the old one. |
| PluginApiClient.ApiClient.RunApiLoop | GoodFriend.Plugin/Types/APIClient.cs:333-353 | The while loop raises exactly ApiLoop's events and ends as ApiLoop does. A close by the owner raises Closed. |
| PluginApiClient.ApiClient.ReadOne | GoodFriend.Plugin/Types/APIClient.cs:335-352 | One pass of the loop body adds the events of ApiLoop's turn at that read, goes on reading exactly when ApiLoop does, and changes no other field. |
| PluginApiClient.ApiClient.ConsumeStream | GoodFriend.Plugin/Types/APIClient.cs:330-368 | After the established event and the read loop the new state is AfterStream of the old one. |
| PluginApiClient.ApiClient.OpenSSEStream | GoodFriend.Plugin/Types/APIClient.cs:275-283 | Throws when connected; otherwise opens a connection. |
| PluginApiClient.ApiClient.TimerElapsed | GoodFriend.Plugin/Types/APIClient.cs:184 | A tick reopens the stream only while the handlers are wired and the client is not connected. |
| PluginApiClient.ApiClient.GetMetadataAt | GoodFriend.Plugin/Types/APIClient.cs:374-407 | On any client, disposed or not, the result and the new logs are MetadataResult of the old state. |
| PluginApiClient.ApiClient.Dispose | GoodFriend.Plugin/Types/APIClient.cs:247-269 | Closes a connected stream, unwires the handlers, and cancels and disposes the HttpClient. A second call throws. |
| PlayerLoginStateRequest.InitContentIdHash | src/Client/Http/Requests/PostPlayerLoginStateRequest.cs:43-53 | Throws exactly when the array is 32 bytes long; any other array is stored unchanged. |
| PlayerLoginStateRequest.InitContentIdSalt | src/Client/Http/Requests/PostPlayerLoginStateRequest.cs:63-73 | Throws exactly when the array is 16 bytes long; any other array is stored unchanged. |
| PlayerLoginStateRequest.NewRequestData | src/Client/Http/Requests/PostPlayerLoginStateRequest.cs:33-89 | The record is built exactly when neither array has its refused length, and then holds the given values. Otherwise the first failing accessor's exception is raised. |
| PlayerLoginStateRequest.DocumentedLengthsRefused | src/Client/Http/Requests/PostPlayerLoginStateRequest.cs:40-50 | A 32-byte hash with a 16-byte salt cannot be built; one byte shorter each, they can. |
| PlayerLoginStateRequest.Keyed | src/Client/Http/Requests/PostPlayerLoginStateRequest.cs:19-31 | A body has exactly the keys 0 to 4. |
| PlayerLoginStateRequest.KeyedRoundTrip | src/Client/Http/Requests/PostPlayerLoginStateRequest.cs:19-31 | Reading the keyed members back gives the body. |
| PlayerLoginStateRequest.BodyCarriesRequestData | src/Client/Http/Requests/PostPlayerLoginStateRequest.cs:98-105 | Each of the five request fields lands unchanged under its own key. |
| PlayerLoginStateRequest.ToBodyInjective | src/Client/Http/Requests/PostPlayerLoginStateRequest.cs:98-105 | Distinct requests give distinct bodies. |
| PlayerLoginStateRequest.BuildMessage | src/Client/Http/Requests/PostPlayerLoginStateRequest.cs:96-111 | A POST to "api/event" with content type application/msgpack, whose content is the serialised keyed body. |
| PlayerLoginStateRequest.BuildMessageDelivers | src/Client/Http/Requests/PostPlayerLoginStateRequest.cs:96-111 | Decoding the content with an inverse of the serializer recovers every request field. |
| HttpTypes.ToStr | src/Api/src/extractors/content_id.rs:34 | A header value is text exactly when every byte is visible ASCII or a tab. The text then has one ASCII character per byte. |
| HttpTypes.HeaderStr | src/Api/src/extractors/client_key.rs:31-34 | A header is found under its lower-cased name, and is present exactly when its value is text. |
| ContentIdExtractor.FromRequestParts | src/Api/src/extractors/content_id.rs:30-53 | HashMissing exactly when the hash header is absent or not text. SaltMissing exactly when the hash is present and the salt is not. Success exactly when both are at least 64 and 32 bytes, returning them unchanged. |
| ContentIdExtractor.IntoResponse | src/Api/src/extractors/content_id.rs:56-65 | Every rejection is 400 "Invalid ContentId data". |
| ContentIdExtractor.AcceptedIdLengths | src/Api/src/extractors/content_id.rs:43-47 | An accepted hash has at least 64 characters and an accepted salt at least 32. |
| ContentIdExtractor.AcceptedIffLongEnough | src/Api/src/extractors/content_id.rs:43-52 | With both headers given, the id is accepted exactly when the lengths reach the minimums; longer values are accepted. Any rejection is HashOrSaltInvalid. |
| ClientKeyExtractor.PresentedKey | src/Api/src/extractors/client_key.rs:31-38 | The presented key is the trimmed header text, present exactly when the header is text. |
| ClientKeyExtractor.FromRequestParts | src/Api/src/extractors/client_key.rs:26-49 | With no configured keys, every request passes. Otherwise the result is MissingKey exactly when the key is absent or blank, and success exactly when the trimmed key is one of the configured keys. |
| ClientKeyExtractor.IntoResponse | src/Api/src/extractors/client_key.rs:52-60 | InvalidKey is 403 "Invalid client key"; MissingKey is 401 "Missing client key". |
| ClientKeyExtractor.PaddedConfiguredKeyNeverMatches | src/Api/src/extractors/client_key.rs:35 | A configured key with surrounding white space can never be presented. |
| ClientKeyExtractor.OnlyTrimmedKeyMatters | src/Api/src/extractors/client_key.rs:31-48 | Two headers with the same trimmed text give the same outcome. |
| Broadcast.SendOutcome | src/Api/src/routes/announcements/send.rs:16 | A send succeeds exactly when there is a receiver; a failed send hands the message back. |
| Broadcast.Channel.constructor | src/Api/src/main.rs:50 | A new channel has delivered nothing. |
| Broadcast.Channel.Subscribe | src/Api/src/routes/stream.rs:47 | Subscribing adds one receiver. |
| Broadcast.Channel.Send | src/Api/src/routes/announcements/send.rs:16 | The message is delivered, exactly once, exactly when there is a receiver. |
| Streams.FilterMap | src/Api/src/routes/events/stream.rs:8-14 | filter_map yields at most one item per input. |
| Streams.FilterMapAppend | src/Api/src/routes/events/stream.rs:8-14 | filter_map over two parts is the concatenation of its results on each part. |
| Streams.FilterMapMembers | src/Api/src/routes/events/stream.rs:8-14 | Every kept item is the image of an input, and every input with an image is kept. |
| Streams.FilterMapTotal | src/Api/src/routes/events/stream.rs:8-14 | When nothing is dropped, filter_map is map. |
| Streams.TakeWhile | src/Api/src/routes/stream.rs:63 | take_while keeps the longest prefix whose items satisfy the predicate. |
| Streams.Map | src/Api/src/routes/stream.rs:64 | map keeps the length and transforms each item in place. |
| EventStreamRoute.NewSerializedEventData | src/Api/src/routes/stream.rs:37-42 | The encoding is wrapped unchanged, or the encoder's error is passed on. |
| EventStreamRoute.EventItem | src/Api/src/routes/stream.rs:57-60 | A broadcast item is dropped exactly when it is a lag notice. |
| EventStreamRoute.MergedItem | src/Api/src/routes/stream.rs:55-60 | A tick always yields a heartbeat; a broadcast item yields what EventItem does. |
| EventStreamRoute.EventStreamBody | src/Api/src/routes/stream.rs:54-64 | The body is never empty, and its first frame is the 0x90 heartbeat. |
| EventStreamRoute.PipelineIsFrames | src/Api/src/routes/stream.rs:57-64 | filter_map, take_while and map over the merged stream give Frames. Frames is an independent definition: ticks are heartbeats, data is sent unchanged, lag is skipped, and everything stops at shutdown. |
| EventStreamRoute.EventStreamBodyIsFrames | src/Api/src/routes/stream.rs:54-64 | The body is the initial heartbeat followed by Frames of the merged stream. |
| EventStreamRoute.FramesAppend | src/Api/src/routes/stream.rs:61-63 | Before a shutdown, the frames of two parts of the stream concatenate. |
| EventStreamRoute.NothingAfterShutdown | src/Api/src/routes/stream.rs:59-63 | Nothing after a shutdown message is ever sent. |
| EventStreamRoute.LagIsDropped | src/Api/src/routes/stream.rs:57 | A lag notice produces no frame. |
| EventStreamRoute.DataFramesInOrder | src/Api/src/routes/stream.rs:57-58 | Data messages go out in broadcast order, their bytes unchanged. |
| EventStreamRoute.FramesComeFromStream | src/Api/src/routes/stream.rs:54-64 | Every frame is a heartbeat or the bytes of a data message in the stream. |
| EventStreamRoute.ClientSeesHeartbeatFirst | src/Api/src/routes/stream.rs:46 | The binary client's read loop takes the stream's first frame for a heartbeat, whatever its decoder. |
| EventRoute.ToEventData | src/Api/src/routes/event.rs:28-34 | Every request field is copied unchanged. |
| EventRoute.CopiedSaltOffDeclaredSize | src/Api/src/routes/event.rs:15 | A salt of the request's declared size never has EventData's declared size. |
| EventRoute.EventMessage | src/Api/src/routes/event.rs:25-41 | A data message of the serialised event is built exactly when serialisation succeeds. |
| EventRoute.EventStatus | src/Api/src/routes/event.rs:35-46 | Only 202 or 500 is returned, and 202 exactly when serialisation succeeds. |
| EventRoute.SendEventHandler | src/Api/src/routes/event.rs:21-47 | Returns EventStatus. Nothing is sent on a serialisation error; otherwise the message is sent once, and delivered when anyone listens. |
| EventRoute.BroadcastEventReachesStream | src/Api/src/routes/event.rs:25-41 | A broadcast event appears on the event stream as the serialiser's bytes, after the initial heartbeat. |
| LoginStateRoute.LoginStateUpdate | src/Api/src/routes/events/update_loginstate.rs:24-40 | The update is refused exactly when the hash is under 64 bytes or the salt under 32. Otherwise it carries the strings unchanged and a LoginStateChange with the world, territory and login flag. |
| LoginStateRoute.LoginStateStatus | src/Api/src/routes/events/update_loginstate.rs:24-45 | Only 400 or 202 is returned, and 202 exactly when the update is accepted. |
| LoginStateRoute.SendLoginStateHandler | src/Api/src/routes/events/update_loginstate.rs:20-46 | Returns LoginStateStatus. A refused update sends nothing; an accepted one is sent exactly once. |
| LoginStateRoute.MinimumsCountBytes | src/Api/src/routes/events/update_loginstate.rs:24-28 | The minimums count bytes: 32 two-byte characters pass the 64-byte hash check, and 63 ASCII characters fail it. |
| AnnouncementRoute.AnnouncementStatus | src/Api/src/routes/announcements/send.rs:12-25 | 400 exactly when the message is all white space; 500 exactly when it is not and no one is subscribed; 200 otherwise. |
| AnnouncementRoute.PostAnnouncement | src/Api/src/routes/announcements/send.rs:7-26 | Returns AnnouncementStatus. A blank message sends nothing; otherwise the untrimmed payload is sent once, and delivered exactly when the status is 200. |
| AnnouncementRoute.OkMeansDelivered | src/Api/src/routes/announcements/send.rs:16-25 | 200 exactly when the message is not blank and the send reached a receiver. |
| PlayerEventsStreamRoute.Encoder | src/Api/src/routes/events/stream.rs:8-14 | An update yields its encoding; a lag notice or a failed encoding yields nothing. |
| PlayerEventsStreamRoute.PlayerEventsBody | src/Api/src/routes/events/stream.rs:8-14 | The body has at most one frame per broadcast item. |
| PlayerEventsStreamRoute.BodyAppend | src/Api/src/routes/events/stream.rs:8-14 | The body of a longer run extends the body of its prefix. |
| PlayerEventsStreamRoute.BodyMembers | src/Api/src/routes/events/stream.rs:8-14 | Every frame encodes a broadcast update, and every update that encodes is sent. |
| PlayerEventsStreamRoute.BodyInOrder | src/Api/src/routes/events/stream.rs:8-14 | Without lag or encoding failures, the body is the updates' encodings in broadcast order. |

## Left out

- I/O and concurrency: the real HTTP transport, `async void`, awaits and `System.Timers` threads are not modelled. Races between a timer callback and a running read loop are also out. Each connection attempt runs to its end (or to the end of its read list) before the next operation.
- An owner's call in the middle of a read appears only as `DisconnectCalled`/`DisconnectRequested`/`CloseCalled` steps of the read list.
- When `CancelPendingRequests` or a close interrupts a read, the read exception that follows is not modelled.
- Exceptions thrown by observers' handlers are not modelled. An handler that throws would surface through the client's catch blocks or the async-void context.
- The MessagePack, System.Text.Json, Newtonsoft, `HttpUtility.UrlDecode` and `rmp_serde` libraries are function parameters; no serialisation format is modelled.
- `MessagePackStreamReader` framing is not modelled: each read yields one whole frame.
- The ways `ReadLine` can return null are not modelled, so a null SSE line (which the C# treats as a heartbeat) cannot occur.
- HttpStreamClient.StreamClient.HandleReconnectTimerElapse: the increment follows the start of Connect, as when `GetStreamAsync` awaits. A `GetStreamAsync` that fails synchronously, which would let the exception handlers run before the increment, is not modelled.
- Time: durations are whole milliseconds rather than the doubles of `TimeSpan` and `Timer.Interval`, and the current time is a parameter. The 30-second heartbeat interval of the event stream and the timing of `merge` are given by the order of the merged sequence.
- HttpStreamClient.NextInterval: the `Timer.Interval` setter refuses an interval above Int32.MaxValue milliseconds; the timer swallows that exception in its elapsed handler and the interval stays as it was. The model adds the increment without that bound.
- PluginApiClient.RateLimitAfter: `int.Parse` overflow and the `DateTime` range are not modelled; an unparsable header is one error case.
- `APIClient.ConfigureHttpClient` (base address, headers, timeout), `SendLogin` and `SendLogout` are not modelled. They depend on `CryptoUtil` and URL encoding, which are not part of this model.
- PlayerLoginStateRequest: `Send` and `SendAsync` are not modelled separately. They only hand `BuildMessage`'s message to the HttpClient.
- PlayerLoginStateRequest.NewRequestData: an object initializer runs the init accessors in the order the caller writes them. The model fixes the hash before the salt.
- The axum and MessagePack body extraction in the handlers is not modelled; each handler starts from a deserialised request. The `AuthenticatedUser` extractor on `post_announcement` is not modelled either.
- The client-key extractor: `state.client_keys` and `state.announcement_events_stream` are not fields of the `AppState` in main.rs. The model takes the configured keys and the announcement channel as parameters.
- LoginStateRoute.SendLoginStateHandler and PlayerEventsStreamRoute.PlayerEventsBody: both routes use `state.events_broadcast_channel`, which main.rs:38 types `broadcast::Sender<EventStreamMessage>`, the channel that event.rs and stream.rs also use. They send and read `PlayerEventStreamUpdate` values, so the model gives them their own `Channel<PlayerEventStreamUpdate>` rather than the AppState field. It does not model the sharing of one channel between these routes and the binary event routes.
- The response headers of the two stream routes (content type, cache control, buffering) are not modelled, and neither is the shutdown signal in main.rs.
- Broadcast capacity: the 16-message capacity of the channel is not modelled, only the lag notices a receiver sees.
- `routes/events/mod.rs` is not part of this model; PlayerEventStreamUpdate and PlayerStateUpdateType are declared from their use in update_loginstate.rs.
