# discord_api: the gateway codec and the REST route table

A model of the protocol core of the `discord_api` Kinode process, a client for the
Discord bot API. It covers three parts.

- **The inbound gateway decoder.** `parse_gateway_blob` turns one WebSocket frame
  `{op, d, s, t}` into a `GatewayReceiveEvent` and the frame's sequence number. Opcodes
  1, 7, 9, 10 and 11 are control events. Every other frame is read through its
  dispatch tag `t`, which is looked up case-insensitively by `GatewayEventType::from_str`.
  The frame's `d` must then deserialise as that event's payload struct.
- **The outbound serialiser.** `GatewaySendEvent::to_json_bytes` builds the frames the
  client sends: Identify, Resume, Heartbeat, Request Guild Members, Update Voice State
  and Update Presence. The `as_u8` tables give the numbers of the application-command
  option types and command types.
- **The REST request builder.** `HttpApiCall::to_request` maps each REST call to a URL
  under `https://discord.com/api/v9`, an HTTP method, and a body.
  `gen_query_params` builds the URL's query from optional values.

The Dafny modules follow the source files:

| module | file | models |
|---|---|---|
| `Wrappers` | wrappers.dfy | `Option`, `Result` |
| `Json` | json.dfy | `serde_json::Value` as an abstract datatype, bytes |
| `Types` | types.dfy | the constants, `GatewayPayload` and its derived serde, the payload shapes |
| `EventTypes` | event_types.dfy | `GatewayEventType` and `from_str` |
| `GatewayApi` | gateway_api.dfy | `parse_gateway_blob` |
| `SendEvents` | send_events.dfy | `GatewaySendEvent::to_json_bytes` and its inverse |
| `CommandTypes` | command_types.dfy | the two `as_u8` tables |
| `QueryParams` | query_params.dfy | `gen_query_params`, as a method with a loop and as a specification function |
| `HttpApi` | http_api.dfy | `to_request`, one route function per call type |

Some design choices:

- **serde is a parameter.** `serde_json`'s text parser and its derived deserialisers
  for the fifty payload structs are passed to the decoder as a `Serde` record of two
  functions. What serde accepts is not modelled; the decoder's branches around it are.
- **The tag table is a parameter.** The decoder takes a `Table`. `AsWritten` is
  `from_str` as the repository spells it, and `Corrected` is the same table with the
  auto-moderation keys Discord sends (see Findings). Every lemma about the decoder holds
  for both tables; the two auto-moderation lemmas show where they differ.
- **Payload variants are folded.** The receive-event variants that carry a single
  payload struct are one constructor, `Dispatched(kind, data)`. Here `data` is the `d`
  that serde accepted as `ShapeOf(kind)`.
- **The send serialiser has an inverse.** `FromJson` reads a frame back into a command.
  The round trip is proved up to `Normalize`, which fills in Identify's defaults.
- **REST calls keep only their URL fields.** Each call keeps the fields that go into
  its URL. The body is only said to be empty or present.

## Model

| member | source | states |
|---|---|---|
| `Types.ToValue` | src/types.rs:11-17 | the derived `Serialize` writes an object with exactly the members `op`, `d`, `s`, `t` |
| `Types.FromValueToValue` | src/types.rs:11-17 | every envelope whose `op` fits a `u32` and whose `s` fits a `u64` survives serialising and deserialising |
| `Types.FromValue` | src/types.rs:11-17 | whatever the derived deserialiser accepts fits the Rust field types; an object lacking `op` or `d`, an array not of four elements, and any scalar are rejected |
| `EventTypes.UpperChar` | src/types.rs:309 | a lower-case ASCII letter becomes the letter 32 code points below it, its upper-case form; every other character is kept; no lower-case letter is left |
| `EventTypes.Upper` | src/types.rs:309 | `to_uppercase` keeps the length and upper-cases each character in place, leaving no lower-case letter |
| `EventTypes.UpperIdempotent` | src/types.rs:309 | upper-casing twice is upper-casing once |
| `EventTypes.UpperKeeps` | src/types.rs:309 | an upper-case string is unchanged by upper-casing |
| `EventTypes.LookupKey` | src/types.rs:310-376 | the corrected key table maps the tag Discord sends for every kind to that kind |
| `EventTypes.LookupSound` | src/types.rs:310-376 | the corrected key table maps a key to a kind only when the key is the tag Discord sends for that kind |
| `EventTypes.KeyInjective` | src/types.rs:310-376 | no two kinds share a Discord tag |
| `EventTypes.FromStr` | src/types.rs:308-378 | whatever kind the corrected `from_str` returns, the upper-cased argument is that kind's Discord tag |
| `EventTypes.FromStrSome` | src/types.rs:308-378 | the corrected `from_str(s)` is `Some(k)` if and only if the upper-cased `s` is `k`'s Discord tag |
| `EventTypes.FromStrNone` | src/types.rs:308-378 | the corrected `from_str(s)` is `None` if and only if the upper-cased `s` is no kind's Discord tag |
| `EventTypes.FromStrEmpty` | src/types.rs:377 | the corrected `from_str` rejects the empty tag |
| `EventTypes.FromStrCaseInsensitive` | src/types.rs:308-309 | for the corrected `from_str`, upper-casing the argument first changes nothing |
| `EventTypes.FromStrKey` | src/types.rs:308-378 | the corrected `from_str` recognises the tag Discord sends for each kind as that kind (the source does not, for the four auto-moderation kinds: see Findings) |
| `EventTypes.AsWrittenAgrees` | src/types.rs:310-376 | outside the auto-moderation spellings, the table as written and the corrected table agree |
| `EventTypes.AsWrittenMissesAutoModeration` | src/types.rs:313-316 | the table as written returns `None` for the four auto-moderation tags Discord sends, and the corrected table recognises them |
| `EventTypes.FromStrAsWritten` | src/types.rs:308-378 | whatever kind `from_str` as written returns, the upper-cased argument is the key the repository writes for that kind |
| `EventTypes.LookupAsWrittenAgrees` | src/types.rs:310-376 | every key the corrected table maps to a kind other than the auto-moderation ones is mapped to the same kind by the table as written |
| `EventTypes.KnownAutoModerationKeys` | src/types.rs:313-316 | the corrected table maps the four `AUTO_MODERATION_*` tags to the four auto-moderation kinds |
| `EventTypes.KeyAsWrittenOther` | src/types.rs:310-376 | outside auto-moderation, the table as written expects the same key as the corrected table |
| `EventTypes.AsWrittenFallsThrough` | src/types.rs:310-376 | away from its own four auto-moderation spellings, whatever the table as written knows the corrected table knows too, and the key is none of the `AUTO_MODERATION_*` tags |
| `EventTypes.LookupAsWrittenSound` | src/types.rs:310-376 | the table as written maps a key to a kind only when the key is the one it writes for that kind |
| `EventTypes.LookupAsWrittenKey` | src/types.rs:310-376 | the table as written maps the key it writes for every kind to that kind, and every such key is upper case |
| `EventTypes.AutoModerationKeysUpper` | src/types.rs:313-316 | the four `AUTOMODERATION_*` keys are upper case, so `from_str` can match them |
| `EventTypes.FromStrAsWrittenSome` | src/types.rs:308-378 | `from_str` as written is `Some(k)` if and only if the upper-cased argument is the key it writes for `k` |
| `EventTypes.FromStrAsWrittenKey` | src/types.rs:308-378 | `from_str` as written recognises the key it writes for every kind |
| `EventTypes.FromStrAsWrittenEmpty` | src/types.rs:377 | `from_str` as written rejects the empty tag |
| `EventTypes.CorrectedRejectsMisspelling` | src/types.rs:313-316 | the four `AUTOMODERATION_*` spellings reach their kinds in the table as written and are unknown to the corrected one |
| `GatewayApi.ShapeOf` | src/gateway_api.rs:137-960 | no dispatch tag reads the `Hello` payload; only GUILD_CREATE and GUILD_UPDATE read a full guild, and only GUILD_DELETE an unavailable guild (besides GUILD_CREATE's fallback, see `GuildCreateFallback`) |
| `GatewayApi.DecodeDispatch` | src/gateway_api.rs:137-966 | each arm yields an event whose payload has the shape it was checked against, with the arm's own kind and the frame's `d`, or fails to parse that kind |
| `GatewayApi.TagKind` | src/types.rs:308-378 | whichever table is used, the kind returned has the upper-cased tag as its key in that table |
| `GatewayApi.TagKindSome` | src/types.rs:308-378 | each table recognises a tag as `k` if and only if the upper-cased tag is that table's key for `k` |
| `GatewayApi.TagKindOf` | src/types.rs:308-378 | each table recognises its own key for every kind |
| `GatewayApi.TagKindEmpty` | src/types.rs:377 | neither table knows the empty tag |
| `GatewayApi.Classify` | src/gateway_api.rs:98-970 | every accepted frame returns its own `s`, and a frame that got past the envelope is never reported as "not a valid GatewayPayload" |
| `GatewayApi.Envelope` | src/gateway_api.rs:82-96 | text the parser rejects is not an envelope, and every envelope read fits the Rust field types |
| `GatewayApi.ParseGatewayBlob` | src/gateway_api.rs:79-971 | a frame is rejected as "not a valid GatewayPayload" if and only if the text parser or the envelope deserialiser rejects it; every accepted frame comes from an envelope and returns that envelope's `s` |
| `GatewayApi.ControlOpcodes` | src/gateway_api.rs:100-127 | opcodes 1, 7 and 11 yield Heartbeat, Reconnect and HeartbeatAck whatever `d` and `t` hold |
| `GatewayApi.InvalidSessionIff` | src/gateway_api.rs:108-111 | opcode 9 yields `InvalidSession(b)` if and only if `d` is the boolean `b`; otherwise it is an error |
| `GatewayApi.HelloIff` | src/gateway_api.rs:112-124 | opcode 10 yields `Hello(d)` if and only if `d` has the `Hello` shape, and otherwise fails to parse Hello |
| `GatewayApi.UnknownTag` | src/gateway_api.rs:130-135 | any other opcode with a tag the table rejects is an unknown event type, reported with the tag as sent |
| `GatewayApi.MissingTag` | src/gateway_api.rs:130-135 | a frame with no tag and no control opcode is the unknown event type "" |
| `GatewayApi.KnownTag` | src/gateway_api.rs:130-137 | a tag the table knows, in any mix of cases, hands `d` to that kind's arm: success, event and error all come from that arm |
| `GatewayApi.DispatchIff` | src/gateway_api.rs:137-966 | a one-payload kind yields its event if and only if `d` has that kind's payload shape |
| `GatewayApi.ResumedIgnoresData` | src/gateway_api.rs:151 | RESUMED succeeds whatever `d` holds |
| `GatewayApi.GuildCreateFallback` | src/gateway_api.rs:389-404 | GUILD_CREATE yields the full guild if `d` is one; otherwise the unavailable guild if `d` is one; otherwise an error. Exactly one of the two is ever set |
| `GatewayApi.AsWrittenRejectsAutoModeration` | src/gateway_api.rs:130-219 | a dispatch frame tagged `AUTO_MODERATION_*`, as Discord sends it, is an unknown event type to the decoder as written, whatever its payload; the corrected decoder hands it to its arm |
| `GatewayApi.AsWrittenAcceptsMisspelling` | src/gateway_api.rs:130-219 | only a frame tagged `AUTOMODERATION_*` reaches the auto-moderation arms of the decoder as written; the corrected decoder reports it as unknown |
| `GatewayApi.ClassifyTagged` | src/gateway_api.rs:130-137 | a dispatch frame with the table's key for `k` succeeds with what `k`'s arm returns, and the frame's `s` |
| `GatewayApi.DecodeFrame` | src/gateway_api.rs:79-971 | with either table, every event the decoder can return is decoded from its own frame, tagged with that table's key, with the same sequence number |
| `GatewayApi.DecodedIsDecodable` | src/gateway_api.rs:79-971 | every event the decoder returns has a payload of the shape its kind requires |
| `SendEvents.Payload` | src/types.rs:130-236 | a heartbeat's `d` is the sequence number or `null`; every other command's `d` is an object with exactly the members that command sends |
| `SendEvents.ToJson` | src/types.rs:130-236 | each frame is an object with exactly `op` and `d`; the opcodes are Identify 2, Resume 6, Heartbeat 1, Request Guild Members 8, Update Voice State 4 and Update Presence 3 |
| `SendEvents.Normalize` | src/types.rs:147-149 | filling in the defaults fixes every Identify field that has a default and changes no other command |
| `SendEvents.PresenceRoundTrip` | src/types.rs:79-85 | a presence update is read back from its serialised form |
| `SendEvents.StrArrayOptRoundTrip` | src/types.rs:195 | an optional list of user ids is read back from its serialised form |
| `SendEvents.PropertiesRoundTrip` | src/types.rs:19-24 | the connection properties are read back from their serialised form |
| `SendEvents.IdentifyRoundTrip` | src/types.rs:133-157 | an Identify payload is read back as the command with its defaults filled in |
| `SendEvents.ResumeRoundTrip` | src/types.rs:158-172 | a Resume payload is read back as the command |
| `SendEvents.RequestGuildMembersRoundTrip` | src/types.rs:180-200 | a Request Guild Members payload is read back as the command |
| `SendEvents.UpdateVoiceStateRoundTrip` | src/types.rs:201-217 | an Update Voice State payload is read back as the command |
| `SendEvents.FromJsonToJson` | src/types.rs:130-236 | every frame is read back as the command it was built from, with Identify's defaults filled in |
| `SendEvents.ToJsonNormalize` | src/types.rs:147-149 | sending a default explicitly gives the same frame as leaving it out |
| `SendEvents.ToJsonInjective` | src/types.rs:130-236 | two commands give the same frame if and only if they agree once the defaults are filled in |
| `SendEvents.IdentifyDefaults` | src/types.rs:147-149 | Identify sends `compress` false, `large_threshold` 50 and `shard` [0, 1] when they are absent, and the given values otherwise |
| `SendEvents.HeartbeatPayload` | src/types.rs:173-179 | a heartbeat's `d` is the bare sequence number, or `null`, and never an object |
| `SendEvents.ResumePayload` | src/types.rs:158-172 | Resume sends exactly its token, session id and sequence number |
| `SendEvents.IdentifyPresenceAsUpdatePresence` | src/types.rs:150-152 | Identify's `presence` is written exactly as the `d` of an Update Presence frame with the same fields |
| `CommandTypes.OptionTypeAsU8` | src/types.rs:1459-1488 | every option type is numbered within 1..11 |
| `CommandTypes.OptionTypeFromU8` | src/types.rs:1459-1488 | exactly the numbers 1..11 name an option type |
| `CommandTypes.OptionTypeRoundTrip` | src/types.rs:1459-1488 | the option-type table is a bijection onto 1..11 |
| `CommandTypes.OptionTypeAsU8Injective` | src/types.rs:1459-1488 | distinct option types have distinct numbers |
| `CommandTypes.CommandTypeAsU8` | src/types.rs:1511-1524 | every command type is numbered within 1..3 |
| `CommandTypes.CommandTypeFromU8` | src/types.rs:1511-1524 | exactly the numbers 1..3 name a command type |
| `CommandTypes.CommandTypeRoundTrip` | src/types.rs:1511-1524 | the command-type table is a bijection onto 1..3 |
| `CommandTypes.CommandTypeAsU8Injective` | src/types.rs:1511-1524 | distinct command types have distinct numbers |
| `QueryParams.GenQueryParams` | src/http_api.rs:1124-1143 | the loop's result is the query of the present pairs, in order, `?` before the first and `&` before each later one |
| `QueryParams.Present` | src/http_api.rs:1127-1131 | skipping absent values never lengthens the list |
| `QueryParams.JoinedEmptyIff` | src/http_api.rs:1133 | the query built so far is empty if and only if no pair has been written, so the emptiness test places `?` before the first pair |
| `QueryParams.PresentMembers` | src/http_api.rs:1127-1131 | exactly the pairs with a value are kept: each kept pair is an input pair with its value, and each input pair with a value is kept |
| `QueryParams.PresentAppend` | src/http_api.rs:1127-1131 | the present pairs of two lists joined are those of each list, joined |
| `QueryParams.QueryIgnoresAbsent` | src/http_api.rs:1129-1131 | a pair without a value adds nothing to the query, wherever it stands |
| `QueryParams.QueryEmptyIff` | src/http_api.rs:1124-1143 | the query is empty if and only if no pair has a value |
| `QueryParams.PresentEmptyIff` | src/http_api.rs:1127-1131 | no pair is present if and only if every value is absent |
| `QueryParams.JoinedFromFront` | src/http_api.rs:1133-1137 | read from the front, the query is `?` and the first present pair, then `&` and each later one |
| `QueryParams.TailSnoc` | src/http_api.rs:1136 | appending a pair appends `&key=value` |
| `QueryParams.QueryLength` | src/http_api.rs:1124-1143 | each present pair adds its key, its value and two characters to the query |
| `QueryParams.JoinedLength` | src/http_api.rs:1124-1143 | the same count, stated on the joined present pairs |
| `QueryParams.JoinedSnoc` | src/http_api.rs:1132-1138 | one more pair is written after the others, behind `?` when it is the first and `&` otherwise |
| `QueryParams.QuerySnocAbsent` | src/http_api.rs:1129-1131 | one more pair without a value leaves the query unchanged |
| `QueryParams.QuerySnocPresent` | src/http_api.rs:1132-1138 | one more pair with a value is appended as `key=value` after `?` on an empty query and after `&` on a non-empty one |
| `QueryParams.QueryOfTwo` | src/http_api.rs:1124-1143 | two present pairs give `?k1=v1&k2=v2` |
| `QueryParams.QueryOfSecond` | src/http_api.rs:1124-1143 | when the first of two values is absent, the second opens the query with `?` |
| `HttpApi.NatToString` | src/http_api.rs:1159-1162 | `to_string` of a non-negative integer is a non-empty string of decimal digits |
| `HttpApi.IntToString` | src/http_api.rs:1159 | `to_string` of an integer is non-empty, starts with `-` exactly for a negative number, and is decimal digits after that |
| `HttpApi.BoolToString` | src/http_api.rs:1446 | `to_string` of a boolean is `true` or `false`, and `true` exactly for true |
| `HttpApi.NatToStringRoundTrip` | src/http_api.rs:1159-1162 | the rendered digits denote the number |
| `HttpApi.IntToStringSign` | src/http_api.rs:1159 | after the `-` of a negative number comes the rendering of its absolute value |
| `HttpApi.NatToStringInjective` | src/http_api.rs:1162 | distinct non-negative numbers are rendered differently |
| `HttpApi.IntToStringInjective` | src/http_api.rs:1159 | distinct integers are rendered differently, so a query value names one number |
| `HttpApi.ApplicationsRoute` | src/http_api.rs:1174-1203 | every application route is a path starting with `/`, and its GET and DELETE routes carry no body |
| `HttpApi.ChannelsRoute` | src/http_api.rs:1207-1360 | the same, for the channel calls |
| `HttpApi.CommandsRoute` | src/http_api.rs:1364-1553 | the same, for the application-command calls |
| `HttpApi.EmojiRoute` | src/http_api.rs:1557-1649 | the same, for the emoji calls |
| `HttpApi.GatewayRoute` | src/http_api.rs:1653-1659 | the same, for the gateway calls |
| `HttpApi.GuildsRoute` | src/http_api.rs:1665-1917 | the same, for the guild calls |
| `HttpApi.GuildTemplatesRoute` | src/http_api.rs:1924-2000 | the same, for the guild-template calls |
| `HttpApi.InteractionsRoute` | src/http_api.rs:2005-2108 | the same, for the interaction calls |
| `HttpApi.InvitesRoute` | src/http_api.rs:2112-2160 | the same, for the invite calls |
| `HttpApi.MembersRoute` | src/http_api.rs:2164-2297 | the same, for the guild-member calls |
| `HttpApi.MessagesRoute` | src/http_api.rs:2301-2451 | the same, for the message calls |
| `HttpApi.OAuthRoute` | src/http_api.rs:2457-2464 | the same, for the OAuth2 calls |
| `HttpApi.RolesRoute` | src/http_api.rs:2469-2529 | the same, for the role calls |
| `HttpApi.RoleConnectionsRoute` | src/http_api.rs:2533-2580 | the same, for the role-connection calls |
| `HttpApi.ScheduledEventsRoute` | src/http_api.rs:2584-2670 | the same, for the scheduled-event calls |
| `HttpApi.StagesRoute` | src/http_api.rs:2674-2706 | the same, for the stage-instance calls |
| `HttpApi.StickersRoute` | src/http_api.rs:2710-2788 | the same, for the sticker calls |
| `HttpApi.ThreadsRoute` | src/http_api.rs:2792-2950 | the same, for the thread calls |
| `HttpApi.UsersRoute` | src/http_api.rs:2954-2976 | the same, for the user calls |
| `HttpApi.VoiceRoute` | src/http_api.rs:2980-3030 | the same, for the voice calls |
| `HttpApi.WebhooksRoute` | src/http_api.rs:3034-3275 | the same, for the webhook calls |
| `HttpApi.RouteOf` | src/http_api.rs:1147-3278 | every call's route, the audit log's included, is a path starting with `/`, and GET and DELETE carry no body |
| `HttpApi.UnderRoot` | src/http_api.rs:1165-1168 | a path appended to `HTTP_URL` leaves the base intact and begins right after it |
| `HttpApi.ToRequest` | src/http_api.rs:1145-3279 | every URL is `HTTP_URL` followed by `/` and the call's route, with the route's method and body; GET and DELETE requests carry no body |
| `HttpApi.PinAndUnpin` | src/http_api.rs:1288-1308 | pinning and unpinning address `/channels/{c}/pins/{m}`, with PUT and DELETE |
| `HttpApi.BanRoutes` | src/http_api.rs:1695-1717 | unbanning, banning and reading a ban share `/guilds/{g}/bans/{u}` and differ only in method |
| `HttpApi.WidgetRoutes` | src/http_api.rs:1770-1808 | the widget calls use `/widget` for GET and PATCH, `/widget.json` for the settings, and `/widget.png` with an optional `style` query |
| `HttpApi.MfaLevelRoute` | src/http_api.rs:1665-1675 | the MFA level is set with PATCH at `/guilds/{g}/mfa-level`, with a body |
| `HttpApi.ApplicationRoutes` | src/http_api.rs:1174-1191 | the application calls live under `/oauth2/applications`, and the OAuth2 call for the bot's own application reads the same route |
| `HttpApi.AuditLogWithoutFilters` | src/http_api.rs:1149-1171 | an audit-log request with no filters has no query |
| `HttpApi.ExecuteWebhookQuery` | src/http_api.rs:3094-3111 | executing a webhook puts `wait` before `thread_id` in the query |
| `HttpApi.ExecuteWebhookInThread` | src/http_api.rs:3094-3111 | without `wait`, `thread_id` opens the query |

## Left out

- Logging: `print_to_terminal` in the decoder and the text of every error message are not modelled. Errors are constructors of `DecodeError`.
- serde: `serde_json`'s text parser and the derived deserialisers of the payload structs are parameters (`Serde`). Only the envelope deserialiser (`Types.FromValue`) and `from_value::<bool>` are written out.
- Payload structs: the fields of `Hello`, `Ready`, `Guild` and the other payload structs are not modelled. A decoded event keeps the JSON `d` that fitted the struct.
- JSON objects are maps, so duplicate member names and member order are not modelled.
- JSON rendering: `to_string().as_bytes()` in `to_json_bytes` is not modelled. The model stops at the `json!` value.
- Update Presence activities are kept as raw JSON values; `GatewayActivity` is not modelled.
- Integer widths: `u64` and `u128` are unbounded `nat`, and `i64` is unbounded `int`. Only the envelope's `u32` and `u64` bounds are checked, because the decoder rejects frames outside them.
- `EventTypes.Upper`: `str::to_uppercase` is modelled on ASCII only. Non-ASCII case mappings, which can change a string's length, are left out. They can matter: Rust maps `ı` to `I` and `ſ` to `S`, so the source accepts a tag such as `ſTAGE_INSTANCE_CREATE` that the model reports as unknown.
- `SendEvents.ToJson`: returns a frame for any `intents`. In the source, `json!` serialises the `u128` `intents` (src/types.rs:97, 152) through `serde_json::to_value`, which fails for values of 2^64 and above, and `to_json_bytes` then panics.
- Floating point: `Json` has no number other than an integer. A frame whose `d` holds a float, such as an attachment's `duration_secs: Option<f64>` (src/types.rs:1079) inside MESSAGE_CREATE, cannot be written as a `Json` value, so the model says nothing about it.
- The `GatewayEventType::Reconnect` arm at src/gateway_api.rs:861-863 is not modelled. The enum at src/types.rs:240-305 declares no such kind, and `from_str` never returns it. Opcode 7 is the only way to get `Reconnect`.
- `url::Url::parse(...).unwrap()` is not modelled. URLs are plain strings, with no percent-encoding, normalisation, or panic on a malformed URL.
- REST bodies: the JSON body of each call and the body-only fields of the call variants are left out. The body is `Empty` or `Payload`.
- Renamed constructors: `ApplicationCommandType`'s variants `User` and `Message` are `UserCommand` and `MessageCommand`. This avoids a clash with `OptionType.User` in the same module.
- Outside this model: src/process.rs and src/lib.rs. They hold only declarations and no operations: process.rs declares the `Bot` and `BotId` structs (with the constructor `BotId::new`), the `Bots` and `WsChannels` map aliases and the `DiscordApiRequest` enum, and lib.rs declares the modules.
- The derived `Serialize`/`Deserialize` of the other REST and gateway types in src/types.rs are not part of this model.

## Findings

| source | as written | input that shows it | evidently intended | confidence | as-written member | corrected member |
|---|---|---|---|---|---|---|
| src/types.rs:313-316 | `from_str` keys the four auto-moderation events as `AUTOMODERATION_RULE_CREATE`, `AUTOMODERATION_RULE_UPDATE`, `AUTOMODERATION_RULE_DELETE` and `AUTOMODERATION_ACTION_EXECUTION` | a dispatch frame with `t` = `"AUTO_MODERATION_RULE_CREATE"`, the tag Discord sends: `from_str` returns `None`, so the frame is rejected as an unknown event type | the keys carry the underscore Discord uses, `AUTO_MODERATION_*`, so these events reach their arms at src/gateway_api.rs:167-219 | high (not executed) | `GatewayApi.AsWrittenRejectsAutoModeration` (the decoder with `AsWritten`, built on `EventTypes.FromStrAsWritten`), `EventTypes.AsWrittenMissesAutoModeration` | `GatewayApi.DecodeFrame` with `Corrected` (built on `EventTypes.FromStr`), `EventTypes.FromStrKey` |
