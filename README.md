# Swish control plane in Dafny

Swish is a websocket audio server for Discord bots. A bot connects over a
websocket and sends JSON envelopes `{"op": ..., "d": {...}}`. The server routes
each envelope to a per-guild player. The player drives a native voice
transport and finds tracks through an HTTP `/search` endpoint. Tracks travel
as opaque handles: base64 of the UTF-8 bytes of a small JSON object.

The repository holds two generations of the server: the current one under
`swish/` and an older one under `src/`, plus an even older websocket server in
`src/server.py`. It also holds an example bot (`bot.py`) and a test bot
(`tests/bot.py`). This project models the control plane of all of them:

- the gateway's handshake checks, envelope filter and per-connection
  guild registry (`Gateway`, `LegacyServer`);
- the per-guild players' op dispatch, their guard clauses, endpoint
  normalisation, the single runner slot and the reconnect loop (`Voice`,
  `SwishPlayer`, `LegacyPlayer`);
- the track codec and the three Python building blocks it relies on:
  base64, UTF-8 and the JSON text form (`TrackCodec`, `Base64`, `Utf8`,
  `JsonText`, `Json`);
- search-result shaping and the `/search` endpoint (`TrackSearch`,
  `LegacySearch`, `SearchRoute`, `LegacySearchRoute`);
- the outbound-address rotators (`Networks`, `Rotator`, `LegacyRotator`,
  `EarlyRotator`);
- the bot's voice handshake accumulator and its payloads (`BotClient`).

Code that updates state in place is modelled as classes whose methods change
their fields. Each method is specified against a pure function of the old
state, and the properties are lemmas about those functions. Examples:
`Gateway.Connection` is checked against `StepOnce`/`Run`, the players against
`Voice.Wire` step functions, and the rotators against `Next`/`FirstOutside`.

External effects are arguments:

- the native voice transport: a `Link` record of what it answers, plus a
  trace of the calls made on it;
- `yt_dlp` lookups: a resolver function from query and options to the raw
  result;
- `random.choice`: the index of the chosen network;
- `uuid.uuid4()`: an id argument;
- Discord's events: method arguments.
- a player's `handle_payload`, as the gateway loop sees it: a handler that says
  whether the player deleted its own registry entry and whether it raised.

## Model

| member | source | states |
|---|---|---|
| Gateway.Admit | swish/app.py:81-111 | The header checks run in the order User-Agent, User-Id, Authorization, each looking its header up by name without regard to case. A missing or empty User-Agent closes with 4000. Failing only the User-Id check also closes with 4000. A password mismatch after both pass closes with 4001. Every close happens before any frame is read. An admitted connection records the user agent, `"<ua> (<remote>)"` and the user id. Each condition holds in both directions. |
| Gateway.HeaderSpec | swish/app.py:82-100 | `request.headers.get(name)` finds a header exactly when some header line's name equals `name` up to ASCII case, and then gives the value of the first such line. |
| Gateway.HeaderIgnoresCase | swish/app.py:82 | Two names that differ only in ASCII case (`user-agent`, `User-Agent`) look up the same value. |
| Gateway.AdmitIgnoresNameCase | swish/app.py:81-111 | A client that sends every header name in lower case gets exactly the same handshake verdict. |
| Gateway.ClassifySpec | swish/app.py:116-135 | A frame is discarded when it is not JSON, lacks `op`, lacks `d`, or has a missing or falsy `d.guild_id`. A non-dict `d` raises. Every other frame is routed under its guild id. |
| Gateway.StepOnceSpec | swish/app.py:137-142 | A frame that is not routed leaves the registry and the handled list unchanged. A routed frame reuses the guild's player, or creates one with a fresh handle only when the guild has none. Exactly this payload is handed over, last, and no other entry changes. The key then stays registered unless the player's handler deleted its entry, and the loop has failed exactly when it had already failed or the handler raised. |
| Gateway.RunRegistersGuilds | src/app.py:98-124 | When players can be built and no player's handler raises or deletes its entry, every routed payload is handed over once, in arrival order. The registry ends with its old keys plus the routed ones, and the old entries are untouched. |
| Gateway.RunStopsAtFailure | swish/app.py:116-142 | Once the loop has ended with an exception, frames arriving after the ones it read change nothing: they are never read. |
| Gateway.RaisingHandlerEndsLoop | src/app.py:119-124 | When a registered player's `handle_payload` raises (the older player's `stop`, say), that payload was handed over last, the loop ends with that exception, and no later frame (a following `play`) is read. |
| Gateway.RunHandsOverInOrder | swish/app.py:116-142 | Whatever the players do, the payloads handed over are a prefix of the routed payloads, in arrival order, each once, and all of them when no handler raised. Earlier handled payloads are kept. |
| Gateway.RunWithoutPlayers | swish/app.py:137-142 | When building a player raises, the registry gains no entry, whatever the handlers would do. Nothing is handed over, and the first routed frame ends the loop with that error. |
| Gateway.SwishGatewayNeverRegisters | swish/app.py:139 | The call passes four arguments, but the current player's `__init__` takes two. So no player is ever registered, no payload is handed over, and the first routed frame raises `TypeError`. The older player's arity matches. |
| Gateway.Connection.constructor | swish/app.py:108-111 | An admitted connection stores its identity and starts with an empty registry. |
| Gateway.Connection.Receive | swish/app.py:118-142 | One loop body, including the player's outcome (deleting its own entry, raising), updates the connection's state exactly as `StepOnce` does. |
| Gateway.Connection.Serve | swish/app.py:116-142 | The `async for` loop processes frames one at a time. It ends in the state `Run` gives, so nothing after the first frame that raises (in the envelope checks, the constructor or the player's handler) is read. |
| Gateway.Handle | src/app.py:55-127 | The admission is `Admit`. A connection object exists exactly when the handshake is admitted. Its final state is the frame loop run from an empty registry. |
| LegacyServer.Verdict | src/server.py:38-50 | Header names are matched without regard to case. Authorization is compared first and a mismatch gives 401. Then a missing or empty Client-ID gives 400, and otherwise the connection is accepted. A missing or empty User-Agent is accepted, with a warning. Each condition holds in both directions. |
| LegacyServer.Server.constructor | src/server.py:30 | The server starts with no websockets. |
| LegacyServer.Server.Handshake | src/server.py:38-53 | The verdict is `Verdict`. A refusal leaves `websockets` unchanged. An acceptance files the socket and headers under the new id. |
| LegacyServer.AcceptGrows | src/server.py:52-53 | Filing under an unused id adds exactly one entry and keeps every earlier one. |
| Voice.OpNamed | swish/player.py:57-66 | A handler found under a name is the one registered under that name. |
| Voice.HandlerForSpec | swish/player.py:83 | The table lookup finds handler `o` exactly when `o` is in the table and the op is its name. |
| Voice.BeforeLast | swish/player.py:161 | `rpartition(':')[0]` is `''` when there is no colon. Otherwise it is the prefix before a colon, and no colon follows that one. |
| Voice.RemovePrefix | swish/player.py:162 | `removeprefix` drops `p` exactly when the string starts with it, and otherwise returns the string unchanged. |
| Voice.StripEndpoint | swish/player.py:161-162 | An endpoint without `':'` becomes `''`. Otherwise the result is the part before the last colon with a leading `wss://` removed. |
| Voice.StripEndpointPort | swish/player.py:161-162 | `"wss://h:443"` becomes `"h"`. |
| Voice.StripEndpointLastColon | src/player.py:75-76 | `"wss://a:b:1"` becomes `"a:b"`: only the last colon counts. |
| Voice.StripEndpointNoPort | src/player.py:75-76 | `"wss://h"` becomes `"wss"`, because the scheme's colon is the last one. |
| Voice.ConnectReplacesRunner | swish/player.py:95-102 | After a successful connect exactly one runner exists and it is new. Any earlier runner was cancelled. A timed-out connect changes neither the connection nor the runner. At most one runner is ever live. |
| Voice.AfterDisconnect | swish/player.py:137-143 | Disconnecting without a connection changes nothing. With one, it calls `disconnect()` once and drops the connection. |
| Voice.ReconnectSpec | swish/player.py:104-135 | Starting from a live connection, the reconnect loop never crashes. It is still running exactly when every outcome so far was a reconnect request, including timed-out reconnects. It finishes, disconnected, exactly when some outcome closed, failed or returned. Calls are only appended and at most one runner stays live. |
| SwishPlayer.DispatchSpec | swish/player.py:79-88 | An op outside the handler table runs nothing and changes nothing. The op named after handler `h` runs exactly `h` on `payload['d']`. |
| SwishPlayer.VoiceUpdateSpec | swish/player.py:147-169 | Unless `session_id`, `token` and `endpoint` are all truthy, checked in that order, the player is untouched. When they are, the session id is stored, the socket is updated with the normalised endpoint, and the player connects. |
| SwishPlayer.NoConnectionNoCommand | swish/player.py:181-248 | Without a connection, `play`, `stop`, `set_pause_state`, `set_position` and `debug` change nothing and call nothing. |
| SwishPlayer.QuietHandlers | swish/player.py:185-242 | `set_position` and `set_filter` never touch the player. `stop` and `set_position` do nothing while nothing plays. `play` without a track id does nothing. |
| SwishPlayer.PauseNeverResumes | swish/player.py:211-221 | `set_pause_state` never resumes, because a false state counts as missing. It pauses at most once, and for a true state exactly when not already paused. |
| SwishPlayer.DestroyRemovesOwnEntry | swish/player.py:172-177 | `destroy` disconnects once if connected and removes exactly its own guild's registry entry. If the entry is already gone, it raises `KeyError`. |
| SwishPlayer.Player.constructor | swish/player.py:41-55 | A new player has no connection, no runner and an empty trace. |
| SwishPlayer.Player.Connect | swish/player.py:95-102 | `_connect` updates the fields exactly as `AfterConnect` does, and a timeout is reported as `TimeoutError`. |
| SwishPlayer.Player.Disconnect | swish/player.py:137-143 | `_disconnect` updates the fields exactly as `AfterDisconnect` does. |
| SwishPlayer.Player.ReconnectHandler | swish/player.py:104-135 | The `while True` loop ends in the state `Reconnect` gives. A missing connection fails its `assert`. |
| SwishPlayer.Player.VoiceUpdate | swish/player.py:147-169 | The handler's effect and error are those of `VoiceUpdateStep`. |
| SwishPlayer.Player.Destroy | swish/player.py:172-177 | The player's state and the owning connection's registry change as `DestroyStep` says. |
| SwishPlayer.Player.Play | swish/player.py:179-197 | The effect and error are those of `PlayStep`. |
| SwishPlayer.Player.Stop | swish/player.py:199-209 | `stop()` is called only on a connection that is playing. |
| SwishPlayer.Player.SetPauseState | swish/player.py:211-223 | The effect and error are those of `SetPauseStateStep`. |
| SwishPlayer.Player.SetPosition | swish/player.py:225-239 | It changes nothing. It raises nothing while disconnected or not playing. |
| SwishPlayer.Player.Debug | swish/player.py:244-250 | Only a live connection is asked for its state. |
| SwishPlayer.Player.HandlePayload | swish/player.py:79-88 | The payload's effect on the player and the registry is `Dispatch`, and the at-most-one-runner invariant is kept. |
| LegacyPlayer.DispatchSpec | src/player.py:45-64 | `debug` and every other op outside the seven-entry table is dropped with nothing changed. A table op runs exactly its handler. |
| LegacyPlayer.VoiceUpdateSpec | src/player.py:66-79 | A missing `session_id` raises with nothing changed. A missing `token`, then a missing `guild_id`, raises `KeyError` after the session id was stored. A `None` or absent endpoint keeps the new session id but never connects. An endpoint that is not a string raises `AttributeError`. A string endpoint updates the socket with the token, the guild id and the endpoint stripped of `wss://` and its port, then connects, and the handler raises exactly when the connect timed out. |
| LegacyPlayer.PlayNeedsConnection | src/player.py:84-91 | Without a connection nothing is played. The track is still decoded and searched, and a failure there raises. Anything played is the first result's `url`. |
| LegacyPlayer.PlaceholdersRaise | src/player.py:81-103 | `destroy`, `stop`, `set_pause_state`, `set_position` and `set_filter` raise `NotImplementedError` and change nothing. |
| LegacyPlayer.DisconnectRemovesOwnEntry | src/player.py:149-157 | Without a connection, `_disconnect` does nothing. With one, it disconnects once, drops the connection and removes exactly its own registry entry. If that entry is gone, it raises `KeyError`. |
| LegacyPlayer.Player.constructor | src/player.py:34-43 | A new player has no connection, no runner and an empty trace. |
| LegacyPlayer.Player.IsPlaying | src/player.py:161-162 | False when not connected, otherwise the connection's answer. |
| LegacyPlayer.Player.IsPaused | src/player.py:164-165 | False when not connected, otherwise the connection's answer. |
| LegacyPlayer.Player.DebugInfo | src/player.py:167-168 | `{}` when not connected, otherwise the connection's state. |
| LegacyPlayer.Player.Connect | src/player.py:107-115 | `_connect` updates the fields exactly as `AfterConnect` does. |
| LegacyPlayer.Player.Disconnect | src/player.py:149-157 | The player's state and the registry change as `DisconnectStep` says. |
| LegacyPlayer.Player.ReconnectHandler | src/player.py:117-147 | The loop ends as `Reconnect` does, with `AttributeError` on a missing connection. A finished loop has also removed the registry entry, or raised `KeyError` if it was gone. |
| LegacyPlayer.Player.VoiceUpdate | src/player.py:66-79 | The effect and error are those of `VoiceUpdateStep`. |
| LegacyPlayer.Player.Play | src/player.py:84-91 | The effect and error are those of `PlayStep`. |
| LegacyPlayer.Player.HandlePayload | src/player.py:57-64 | The payload's effect is `Dispatch`, and the at-most-one-runner invariant is kept. |
| Json.Lookup | swish/app.py:137 | A key is found exactly when the dict holds it, and the value found is stored under it. |
| Json.Subscript | swish/player.py:166 | `v[k]` succeeds exactly on a dict holding `k`, and gives its value. A dict without the key raises `KeyError(k)`. |
| Json.Get | swish/player.py:149-155 | `d.get(k, default)` gives the stored value, or `default` when the key is absent. |
| Json.DictGet | swish/app.py:133 | `.get` succeeds exactly on a dict. |
| Json.Contains | swish/app.py:125-131 | `k in x` is key membership for a dict, item membership for a list and substring search for a string. Any other value raises. |
| Json.Put | swish/app.py:140 | `d[k] = v` replaces the value of an existing key in place and appends a new key last. No other entry changes. |
| Json.PutKeepsUnique | swish/app.py:183-184 | Assigning keeps a dict's keys distinct, and the key then maps to the new value. |
| Json.LookupPut | swish/app.py:183-184 | After `d[k] = v`, `d[k]` is `v`. |
| Json.LookupUnique | swish/search.py:57-59 | In a dict with distinct keys, each key finds the value at its own position. |
| Json.Iterate | swish/app.py:204-207 | Iterating a list gives its items, a dict gives each of its keys as a string, in order, and a string gives each of its characters as a one-character string. Any other value raises `TypeError`. |
| Base64.EncodeIsStandard | swish/search.py:61-64 | Every handle uses the standard alphabet, with `=` only as trailing padding, and its length is a multiple of four. |
| Base64.Encode | swish/app.py:151 | Every three bytes become four characters, rounding up. |
| Base64.Decode | swish/app.py:155 | `b64decode` of a non-ASCII string raises `ValueError`. |
| Base64.DecodeEncode | swish/app.py:150-155 | `b64decode(b64encode(b)) == b` for every byte string. |
| Base64.EncodeIsAscii | swish/app.py:151 | Encoded text is ASCII, so `.decode()` of it succeeds. |
| Utf8.DecodeEncode | swish/app.py:151-155 | `s.encode().decode() == s` for every string. |
| Utf8.DecodeEncodeChar | swish/search.py:62 | Each character's one to four bytes decode back to exactly that character. |
| JsonText.LoadsDumps | swish/app.py:150-155 | `json.loads(json.dumps(v)) == v` for every scalar and every flat dict, with key order kept. |
| JsonText.StringRoundTrip | src/search.py:39 | A string written with `ensure_ascii` escapes reads back as the same string. |
| JsonText.IntRoundTrip | src/search.py:39 | An integer's text reads back as the same integer. |
| JsonText.NatTextDigits | bot.py:151 | `str(n)` of a natural number is made of decimal digits and reads back as `n`. |
| TrackCodec.DecodeId | swish/app.py:153-155 | Decoding anything but a string raises `TypeError`. |
| TrackCodec.EncodeInfoIsBase64 | swish/app.py:150-151 | A handle is standard base64. |
| TrackCodec.DecodeEncodeInfo | swish/app.py:150-155 | `_decode_track_id(_encode_track_info(info)) == info` for every scalar and flat dict. |
| TrackCodec.KeptFields | swish/search.py:56-59 | `encode_track` succeeds exactly on a dict with `id` and `title`, plus `url` when internal. It keeps those fields in that order. |
| TrackCodec.EncodeTrack | src/search.py:34-42 | Encoding succeeds exactly when the kept fields can be read. |
| TrackCodec.EncodeTrackReadsOnly | src/search.py:35-37 | Only `id`, `title` and, when internal, `url` affect the handle. |
| TrackCodec.DecodeEncodeTrack | swish/search.py:52-64 | `decode_track(encode_track(info, internal=b))` is `{id, title}`, with `url` added exactly when `b`. |
| TrackSearch.EncodeEachSucceeds | swish/search.py:87 | Encoding a list succeeds exactly when every entry can be encoded. |
| TrackSearch.EncodeEachItems | src/search.py:58 | A successful encoding gives one handle per entry, in order. |
| TrackSearch.ShapeSpec | swish/search.py:83-92 | A result with `entries` gives one item per entry, in order. Any other result gives a one-item list. `raw` keeps items unchanged; otherwise each item becomes its handle. |
| TrackSearch.Search.constructor | swish/search.py:39-50 | The options start as the class-level defaults. |
| TrackSearch.Search.SearchYoutube | swish/search.py:66-94 | It rotates first: the banned list and the current address move as one `rotate()` does. The answer is stored as `source_address`, then the lookup runs with the options now in force and the result is shaped. |
| LegacySearch.Search.constructor | src/search.py:17-28 | The options start as the class-level defaults. |
| LegacySearch.Search.SearchYoutube | src/search.py:44-65 | `source_address` is the rotator's answer when a server is given, else `'0.0.0.0'`. With a server, the previous address is banned and the current one moves to the first unbanned address, if any. A rotator error propagates before any lookup and leaves the options alone. The result is shaped as above. |
| SearchRoute.RouteSearchSpec | swish/app.py:228-240 | A request is refused exactly when the query is missing or empty or the source is unknown, and a missing query is reported first. `none` or no source looks up the query itself. A site looks up `<tag>search<max_results>:` followed by the query. |
| SearchRoute.InfoDict | swish/app.py:209-218 | The info dict has its eight keys in source order, each holding its value. |
| SearchRoute.TrackInfo | swish/app.py:209-218 | A built info always has the eight keys. |
| SearchRoute.TrackInfoSpec | swish/app.py:209-218 | An empty thumbnail list or string raises `IndexError`, and nothing else does for these entries. Otherwise it copies `title`, `id` and `url`, and scales the duration to milliseconds. The thumbnail is the list's first element or the string's first character. A missing uploader gives `'Unknown'`, a missing channel id or thumbnail gives `None`, and a missing live status gives `False`. |
| SearchRoute.InfoKeysUnique | swish/app.py:209-218 | The info's keys are distinct. |
| SearchRoute.InfoRoundTrip | swish/app.py:221 | A track's `id` decodes back to its `info` when the info holds only scalars. |
| SearchRoute.TrackIdDecodes | swish/app.py:219-224 | A track is `{id, info}`, and its `id` decodes to its `info` when the info holds only scalars. |
| SearchRoute.TracksOfFailurePersists | swish/app.py:207-224 | Once one entry fails, the whole list fails with the same error. |
| SearchRoute.TracksOfSpec | swish/app.py:204-226 | Tracks are built exactly when every entry gives a track, and then there is one track per entry, in order. |
| SearchRoute.EntriesSpec | swish/app.py:204 | A result without `entries` is its own only entry. |
| SearchRoute.CollectTracks | swish/app.py:205-226 | The append loop gives `Tracks` of the lookup result. |
| SearchRoute.App.constructor | swish/app.py:157-171 | The options start as `_SEARCH_OPTIONS`. |
| SearchRoute.App.YtdlSearch | swish/app.py:181-193 | The rotator moves as one `rotate()` does. The options gain its answer as `source_address` and `extract_flat = not internal`, and the lookup runs with those options. |
| SearchRoute.App.GetPlaybackUrl | swish/app.py:195-198 | The rotator moves as one `rotate()` does and the options hold its answer. The lookup is a full one (`extract_flat` is false), and the result is its `url`. |
| SearchRoute.App.GetTracks | swish/app.py:200-202 | The rotator moves as one `rotate()` does and the options hold its answer. The lookup is flat (`extract_flat` is true), and the result has one track per entry. |
| SearchRoute.App.SearchTracks | swish/app.py:228-241 | A refused request answers 400 with the error and changes no option and no rotator state. Otherwise the rotator moves as one `rotate()` does, the options hold its answer with `extract_flat` true, and the answer is 200 with the tracks of `prefix + query`. |
| LegacySearchRoute.BindKeywords | src/search.py:44 | Keyword binding succeeds exactly when every keyword is a declared parameter. |
| LegacySearchRoute.AppKeywordRejected | src/app.py:134 | `app` is not a parameter of `search_youtube`; `server` is. |
| LegacySearchRoute.App.constructor | src/app.py:22-26 | The application owns one rotator and one search helper. |
| LegacySearchRoute.App.CallSearchYoutube | src/search.py:44-45 | An unknown keyword raises before anything changes. Without `server` the options get `'0.0.0.0'`. With `server` the previous address is banned, the current one moves to the first unbanned address, and `source_address` is its `str` (or `None` when the network is used up). No networks raises `IndexError` with the options unchanged. |
| LegacySearchRoute.App.SearchTracksWith | src/app.py:131-135 | The query is forwarded unchecked, and every answer that comes back has status 200. With `server`, the rotator and the options change as in `CallSearchYoutube`, and an unknown keyword changes nothing. |
| LegacySearchRoute.App.SearchTracksAsWritten | src/app.py:134 | Every request raises `TypeError` and changes nothing. |
| LegacySearchRoute.App.SearchTracks | src/app.py:131-135 | With `server=self`, the rotator bans its previous address and moves to the first unbanned one. `source_address` holds that address, and the lookup runs with it and is shaped. The answer is 200 unless the lookup raises. |
| Networks.TotalCoversNetworks | swish/ip_rotator.py:24-29 | The total is at least each network's size, and it is zero exactly when there are no networks. |
| Networks.TotalStep | src/rotator.py:26-28 | The running total grows by each network's size in turn. |
| Networks.FirstOutsideSpec | swish/ip_rotator.py:44-51 | The scan finds an address that is not taken, and every address before it is taken. It finds none exactly when all are taken. |
| Networks.FirstOutsideNothingTaken | src/rotator.py:38-47 | With nothing banned, the first address is the network address. |
| Rotator.NextSpec | swish/rotator.py:60-67 | The new current address is the first one in the network that is neither banned nor current. When there is none, the current address stays. |
| Rotator.IpRotator.constructor | swish/ip_rotator.py:21-32 | It starts with the networks, their summed total, nothing banned and no current address. |
| Rotator.IpRotator.Rotate | swish/rotator.py:50-69 | Without networks it answers `'0.0.0.0'` and changes nothing. Otherwise it bans the current address, if any, moves as `Next` says and answers `str` of the current address. It never moves to an address it has moved to before, though it answers the old address again when every address is excluded. |
| LegacyRotator.IpRotator.constructor | src/ip_rotator.py:19-33 | It starts with no current address and nothing banned. When there are networks, it rotates once, banning `None`. |
| LegacyRotator.IpRotator.Rotate | src/ip_rotator.py:35-49 | It always appends the previous address, `None` included. It takes the first unbanned address and answers its `str`. A used-up network answers `None`, and an empty network list raises `IndexError`. |
| LegacyRotator.RotateMovesAway | src/ip_rotator.py:37-48 | A rotation that finds an address finds a different one, never banned before. |
| EarlyRotator.IPRotator.constructor | src/rotator.py:17-33 | With blocks, it sums their sizes and picks the chosen network's first address. Without blocks, `networks` and `total` are never set. |
| EarlyRotator.IPRotator.GetIp | src/rotator.py:35-47 | It answers the first unbanned address, which becomes `current`. Since the banned list stays empty, that is always the network address. Without blocks it raises `AttributeError`. |
| BotClient.Envelope | bot.py:62-69 | The envelope's `op` and `d` read back as the op and the data. |
| BotClient.EnvelopeRouted | tests/bot.py:61-67 | The gateway routes every envelope whose data has a truthy, hashable `guild_id` to that guild. |
| BotClient.MergeFresh | bot.py:106 | `{**a, **b}` with keys new to `a` appends `b`'s entries in order. |
| BotClient.VoiceUpdateDataShape | bot.py:104-107 | The `voice_update` data is the session id followed by all server-update fields. |
| BotClient.NothingBeforeBothParts | bot.py:99-102 | Nothing is sent until both parts are present, in either order. |
| BotClient.EveryReadyEventSends | tests/bot.py:81-100 | There is no once-only guard: once both parts are there, every further event sends again. A state event without `session_id` resets it and blocks sending. |
| BotClient.VoiceProtocol.constructor | bot.py:80-81 | Both parts start as `None` and nothing has been sent. |
| BotClient.VoiceProtocol.DispatchVoiceUpdate | bot.py:99-107 | It sends one `voice_update` exactly when both parts are truthy. |
| BotClient.VoiceProtocol.OnVoiceServerUpdate | bot.py:83-89 | It stores the server update, then tries to dispatch. |
| BotClient.VoiceProtocol.OnVoiceStateUpdate | tests/bot.py:89-95 | It stores `data.get('session_id')`, then tries to dispatch. |
| BotClient.PlayData | bot.py:148-152 | No result raises `IndexError`. Otherwise `track_id` is the first result's `id`. |
| BotClient.TestPlayData | tests/bot.py:139-140 | `track_id` is the whole first result. |
| BotClient.PlayPayloadsRouted | bot.py:149-152 | Both bots' `play` envelopes are routed by the gateway. |

## Left out

- Socket I/O, `aiohttp` plumbing, `websocket.close` and `send_json` are not modelled. Close codes, statuses and sent payloads are result values, and `message.json()` is a `Frame`.
- The native voice extension and its build (`native_voice/setup.py`) are not modelled. `_native_voice` is a `Link` of observed flags plus a trace of calls.
- `yt_dlp`, `run_in_executor` and `redirect_stdout` are reduced to a resolver function. `sanitize_info` is taken to be the identity.
- `ExponentialBackoff`, `asyncio.sleep` and real task cancellation are not modelled. The runner is a numbered slot with a cancelled list.
- `random.choice` is the `choice` index and `uuid.uuid4()` the `id` argument.
- CIDR parsing (`ipaddress.ip_network`) is left out: networks are `(base, count)` ranges of IPv4 addresses. IPv6 is left out.
- Floats are left out: `int(duration * 1000)` is modelled for integer and boolean durations only. JSON floats, nested containers in `json.loads`, and lone surrogates give a `NotModelled` error.
- Logging, configuration loading, `launcher.py`, `build.py`, `client.py`, `src/test.py`, `src/main.rs` and `src/utils/configreader.rs` are not modelled. The `print` in `_debug` is not modelled either.
- `swish/types/payloads.py` holds type declarations only. Its op list lacks `debug`, and the model follows the handler table instead.
- `src/server.py`'s message loop only prints messages, so it is not modelled.
- The bots' Discord API calls (`change_voice_state`, `cleanup`, the command framework, the HTTP search request) and `_receive_payload` are not modelled.
- SwishPlayer.Player.constructor: does not model the `websocket['app']` lookup (swish/player.py:47). The gateway never stores that key, so construction would also raise `KeyError`. The gateway's arity error (see Findings) already stops every construction first.
- SwishPlayer.Player.constructor: does not model `int(websocket['user_id'])` (swish/player.py:52), a Python integer parse of a header.
- `Voice.Reconnect`: a task cancelled by a successful reconnect is replaced by the new one, which carries on the same loop. Two interleaved handler tasks are not modelled.
- The player classes do not model `self._app._decode_track_id` through a real application. The playback-URL lookup is the `playbackUrl` argument.
- `Gateway.Handle` records player handles (creation order), not player objects. The gateway loop sees a player's `handle_payload` only through a `Handler`: given the payloads handed over so far, the handle and the payload, it says whether the player deleted its own entry and whether it raised. The players' modules model what each op does, but the two are not tied together.
- Gateway.RunRegistersGuilds: states the final key set only for handlers that neither raise nor delete their entry. For other handlers, `RunHandsOverInOrder`, `RaisingHandlerEndsLoop` and `StepOnceSpec` state what happens.
- Gateway.Admit: header names are compared with ASCII case folding only. `multidict` also folds non-ASCII letters, but HTTP header names are ASCII tokens.
- LegacyServer.Verdict: header names are compared with ASCII case folding only, as for `Gateway.Admit`.
- LegacyPlayer.Player.constructor: does not model `int(user_id)` (src/player.py:43), which raises `ValueError` for a `User-Id` header that is not an integer. At the gateway, that construction is a `Construction.Raises` and ends the loop on the guild's first frame, as `RunWithoutPlayers` states.
- SearchRoute.App.constructor: `_SEARCH_OPTIONS` (swish/app.py:157) is a class attribute, shared by every `App` and written through `self`. The model gives each instance its own copy, so it does not capture one instance seeing another's `source_address`.
- TrackSearch.Search.constructor: `YT_DL_OPTIONS` (swish/search.py:39) is a class attribute shared by every `Search`; each modelled instance has its own copy.
- LegacySearch.Search.constructor: `opts` (src/search.py:17) is a class attribute shared by every `Search`; each modelled instance has its own copy.
- SwishPlayer.Player.Destroy: a missing registry entry raises a `KeyError` labelled `guild_id`, where Python's `KeyError` carries the guild id's value.
- LegacyPlayer.Player.Disconnect: a missing registry entry raises a `KeyError` labelled `guild_id`, where Python's `KeyError` carries the guild id's value.

## Findings

| source | as written | input that shows it | evidently intended | confidence | as-written member | corrected member |
|---|---|---|---|---|---|---|
| swish/app.py:139 | `Player(self, websocket, guild_id, user_id)` passes four arguments to `Player.__init__(self, websocket, guild_id)` (swish/player.py:41-45) | any admitted connection's frame with `op`, `d` and a truthy `d.guild_id` | build the guild's player, register it and hand it the payload | high, not executed | Gateway.SwishGatewayNeverRegisters | Gateway.RunRegistersGuilds |
| src/app.py:134 | `search_youtube(search, app=self)`, but the parameter is named `server` (src/search.py:44) | any `GET /search` request | `search_youtube(search, server=self)`, so the rotator supplies the address | high, not executed | LegacySearchRoute.App.SearchTracksAsWritten | LegacySearchRoute.App.SearchTracks |
