/** The inbound half of the gateway: `parse_gateway_blob` (src/gateway_api.rs:79-971),
    which turns one frame received on the WebSocket into a `GatewayReceiveEvent` and
    the frame's sequence number.

    The Rust enum has one variant per event, each wrapping the struct serde produced.
    Here the variants that carry one payload struct are folded into
    `Dispatched(kind, data)`: `kind` names the variant and `data` is the JSON value
    that serde accepted as that variant's struct (`ShapeOf(kind)`). The variants with
    other payloads keep constructors of their own. */
module GatewayApi {
  import opened Wrappers
  import opened Json
  import opened Types
  import EventTypes

  datatype ReceiveEvent =
    | Hello(hello: Json)
    | Resumed
    | Reconnect
    | InvalidSession(resumable: bool)
    | Heartbeat
    | HeartbeatAck
    | GuildCreate(guild: Option<Json>, unavailable: Option<Json>)
    | Dispatched(kind: EventTypes.EventType, data: Json)

  /** Why a frame was rejected; the Rust code reports each as an `anyhow` error. */
  datatype DecodeError =
    | NotAGatewayPayload
    | NotABool
    | FailedToParseHello
    | FailedToParse(kind: EventTypes.EventType)
    | UnknownEventType(tag: string)

  /** An event and the frame's `s`. */
  type Decoded = (ReceiveEvent, Option<nat>)

  /** The struct each dispatched kind's `d` is deserialised into (src/gateway_api.rs:137-960).
      `GuildCreate` first tries `Guild`; `Resumed` reads no payload. `Hello` is read only
      under opcode 10, the full guild only for GUILD_CREATE and GUILD_UPDATE, and the
      unavailable guild only for GUILD_DELETE (and GUILD_CREATE's fallback). */
  function ShapeOf(k: EventTypes.EventType): (r: Shape)
    requires !k.Resumed?
    ensures r != HelloShape
    ensures r == GuildShape <==> k.GuildCreate? || k.GuildUpdate?
    ensures r == UnavailableGuildShape <==> k.GuildDelete?
  {
    match k
    case GuildCreate => GuildShape
    case Ready => ReadyShape
    case ApplicationCommandPermissionsUpdate => ApplicationCommandPermissionsUpdateShape
    case AutoModerationRuleCreate => AutoModerationRuleCreateShape
    case AutoModerationRuleUpdate => AutoModerationRuleUpdateShape
    case AutoModerationRuleDelete => AutoModerationRuleDeleteShape
    case AutoModerationActionExecution => AutoModerationActionExecutionShape
    case ChannelCreate => ChannelShape
    case ChannelUpdate => ChannelShape
    case ChannelDelete => ChannelShape
    case ChannelPinsUpdate => ChannelPinsUpdateShape
    case ThreadCreate => ChannelShape
    case ThreadUpdate => ChannelShape
    case ThreadDelete => ThreadDeleteShape
    case ThreadListSync => ThreadListSyncShape
    case ThreadMemberUpdate => ThreadMemberShape
    case ThreadMembersUpdate => ThreadMembersUpdateShape
    case EntitlementCreate => EntitlementShape
    case EntitlementUpdate => EntitlementShape
    case EntitlementDelete => EntitlementShape
    case GuildUpdate => GuildShape
    case GuildDelete => UnavailableGuildShape
    case GuildAuditLogEntryCreate => AuditLogEntryShape
    case GuildBanAdd => GuildBanAddShape
    case GuildBanRemove => GuildBanRemoveShape
    case GuildEmojisUpdate => GuildEmojisUpdateShape
    case GuildStickersUpdate => GuildStickersUpdateShape
    case GuildIntegrationsUpdate => GuildIntegrationsUpdateShape
    case GuildMemberAdd => GuildMemberShape
    case GuildMemberRemove => GuildMemberRemoveShape
    case GuildMemberUpdate => GuildMemberUpdateShape
    case GuildMembersChunk => GuildMembersChunkShape
    case GuildRoleCreate => GuildRoleCreateShape
    case GuildRoleUpdate => GuildRoleUpdateShape
    case GuildRoleDelete => GuildRoleDeleteShape
    case GuildScheduledEventCreate => GuildScheduledEventShape
    case GuildScheduledEventUpdate => GuildScheduledEventShape
    case GuildScheduledEventDelete => GuildScheduledEventShape
    case GuildScheduledEventUserAdd => GuildScheduledEventUserShape
    case GuildScheduledEventUserRemove => GuildScheduledEventUserShape
    case IntegrationCreate => IntegrationShape
    case IntegrationUpdate => IntegrationShape
    case IntegrationDelete => IntegrationDeleteShape
    case InteractionCreate => InteractionShape
    case InviteCreate => InviteCreateShape
    case InviteDelete => InviteDeleteShape
    case MessageCreate => MessageShape
    case MessageUpdate => MessageShape
    case MessageDelete => MessageDeleteShape
    case MessageDeleteBulk => MessageDeleteBulkShape
    case MessageReactionAdd => MessageReactionAddShape
    case MessageReactionRemove => MessageReactionRemoveShape
    case MessageReactionRemoveAll => MessageReactionRemoveAllShape
    case MessageReactionRemoveEmoji => MessageReactionRemoveEmojiShape
    case PresenceUpdate => PresenceUpdateShape
    case StageInstanceCreate => StageInstanceShape
    case StageInstanceUpdate => StageInstanceShape
    case StageInstanceDelete => StageInstanceShape
    case TypingStart => TypingStartShape
    case UserUpdate => UserShape
    case VoiceStateUpdate => VoiceStateShape
    case VoiceServerUpdate => VoiceServerUpdateShape
    case WebhooksUpdate => WebhooksUpdateShape
  }

  /** The arm of the tag `match` for kind `k`, applied to the frame's `d`. Every arm
      yields an event whose payload has the shape it was checked against, or fails to
      parse `k`. */
  function DecodeDispatch(k: EventTypes.EventType, d: Json, fits: (Shape, Json) -> bool): (r: Result<ReceiveEvent, DecodeError>)
    ensures r.Success? ==> Decodable(r.value, fits)
    ensures r.Success? && r.value.Dispatched? ==> r.value.kind == k && r.value.data == d
    ensures r.Failure? ==> r.error == FailedToParse(k)
  {
    if k.Resumed? then Success(Resumed)
    else if k.GuildCreate? then
      if fits(GuildShape, d) then Success(GuildCreate(Some(d), None))
      else if fits(UnavailableGuildShape, d) then Success(GuildCreate(None, Some(d)))
      else Failure(FailedToParse(EventTypes.GuildCreate))
    else if fits(ShapeOf(k), d) then Success(Dispatched(k, d))
    else Failure(FailedToParse(k))
  }

  /** The key table the tag is looked up in: `AsWritten` is `from_str` as the repository
      spells it (src/types.rs:308-378), `Corrected` the same table with the keys Discord
      sends for the auto-moderation events. */
  datatype Table = AsWritten | Corrected

  /** `GatewayEventType::from_str` with the given table. */
  function TagKind(table: Table, tag: string): (r: Option<EventTypes.EventType>)
    ensures r.Some? ==> EventTypes.Upper(tag) == TagOf(table, r.value)
  {
    match table
    case AsWritten => EventTypes.FromStrAsWritten(tag)
    case Corrected => EventTypes.FromStr(tag)
  }

  /** The tag each table recognises for a kind. */
  function TagOf(table: Table, k: EventTypes.EventType): string {
    match table
    case AsWritten => EventTypes.KeyAsWritten(k)
    case Corrected => EventTypes.Key(k)
  }

  /** Each table recognises a tag, in any mix of cases, exactly when it is the table's
      tag for that kind. */
  lemma TagKindSome(table: Table, tag: string, k: EventTypes.EventType)
    ensures TagKind(table, tag) == Some(k) <==> EventTypes.Upper(tag) == TagOf(table, k)
  {
    match table
    case AsWritten => EventTypes.FromStrAsWrittenSome(tag, k);
    case Corrected => EventTypes.FromStrSome(tag, k);
  }

  /** Each table recognises its own tag for every kind, as sent. */
  lemma TagKindOf(table: Table, k: EventTypes.EventType)
    ensures TagKind(table, TagOf(table, k)) == Some(k)
  {
    match table
    case AsWritten => EventTypes.FromStrAsWrittenKey(k);
    case Corrected => EventTypes.FromStrKey(k);
  }

  /** The empty tag is unknown to both tables. */
  lemma TagKindEmpty(table: Table)
    ensures TagKind(table, "") == None
  {
    match table
    case AsWritten => EventTypes.FromStrAsWrittenEmpty();
    case Corrected => EventTypes.FromStrEmpty();
  }

  /** Everything after the envelope has been read: the opcode `match`, then the tag
      lookup in `table` and the tag `match`. */
  function Classify(p: GatewayPayload, fits: (Shape, Json) -> bool, table: Table): (r: Result<Decoded, DecodeError>)
    ensures r.Success? ==> r.value.1 == p.s
    ensures r.Failure? ==> !r.error.NotAGatewayPayload?
  {
    match p.op
    case 1 => Success((Heartbeat, p.s))
    case 7 => Success((Reconnect, p.s))
    case 9 => if p.d.Bool? then Success((InvalidSession(p.d.b), p.s)) else Failure(NotABool)
    case 10 => if fits(HelloShape, p.d) then Success((Hello(p.d), p.s)) else Failure(FailedToParseHello)
    case 11 => Success((HeartbeatAck, p.s))
    case _ =>
      var tag := p.t.GetOr("");
      match TagKind(table, tag)
      case None => Failure(UnknownEventType(tag))
      case Some(k) =>
        match DecodeDispatch(k, p.d, fits)
        case Success(ev) => Success((ev, p.s))
        case Failure(e) => Failure(e)
  }

  /** `serde_json::from_slice::<GatewayPayload>`: the text parser, then the envelope's
      deserialiser. */
  function Envelope(bytes: seq<byte>, serde: Serde): (r: Option<GatewayPayload>)
    ensures serde.parse(bytes).None? ==> r.None?
    ensures r.Some? ==> InRange(r.value)
  {
    match serde.parse(bytes)
    case None => None
    case Some(doc) => FromValue(doc)
  }

  /** `parse_gateway_blob`, with `AsWritten` the function as the repository has it. A
      frame is rejected as "not a valid GatewayPayload" exactly when it is not an
      envelope, and every accepted frame returns its own `s`. */
  function ParseGatewayBlob(bytes: seq<byte>, serde: Serde, table: Table): (r: Result<Decoded, DecodeError>)
    ensures r == Failure(NotAGatewayPayload) <==> Envelope(bytes, serde).None?
    ensures r.Success? ==> Envelope(bytes, serde).Some? && r.value.1 == Envelope(bytes, serde).value.s
  {
    match Envelope(bytes, serde)
    case None => Failure(NotAGatewayPayload)
    case Some(p) => Classify(p, serde.fits, table)
  }

  /** `parse_gateway_blob` on a frame already parsed as JSON text. */
  function DecodeDocument(doc: Json, fits: (Shape, Json) -> bool, table: Table): Result<Decoded, DecodeError> {
    match FromValue(doc)
    case None => Failure(NotAGatewayPayload)
    case Some(p) => Classify(p, fits, table)
  }

  // ----- what the decoder promises -----

  /** Opcodes 1, 7 and 11 decide the event whatever `d` and `t` hold. */
  lemma ControlOpcodes(p: GatewayPayload, fits: (Shape, Json) -> bool, table: Table)
    ensures p.op == 1 ==> Classify(p, fits, table) == Success((Heartbeat, p.s))
    ensures p.op == 7 ==> Classify(p, fits, table) == Success((Reconnect, p.s))
    ensures p.op == 11 ==> Classify(p, fits, table) == Success((HeartbeatAck, p.s))
  {
  }

  /** Opcode 9 carries a bare boolean, the "resumable" flag; anything else is an error. */
  lemma InvalidSessionIff(p: GatewayPayload, fits: (Shape, Json) -> bool, table: Table, b: bool)
    requires p.op == 9
    ensures Classify(p, fits, table) == Success((InvalidSession(b), p.s)) <==> p.d == Bool(b)
    ensures Classify(p, fits, table).Failure? <==> !p.d.Bool?
    ensures Classify(p, fits, table).Failure? ==> Classify(p, fits, table).error == NotABool
  {
  }

  /** Opcode 10 yields `Hello` exactly when `d` has the `Hello` shape. */
  lemma HelloIff(p: GatewayPayload, fits: (Shape, Json) -> bool, table: Table)
    requires p.op == 10
    ensures Classify(p, fits, table).Success? <==> fits(HelloShape, p.d)
    ensures Classify(p, fits, table).Success? ==> Classify(p, fits, table).value == (Hello(p.d), p.s)
    ensures Classify(p, fits, table).Failure? ==> Classify(p, fits, table).error == FailedToParseHello
  {
  }

  /** Any other opcode is read through its tag: one the table does not know is an
      unknown event type, reported with the tag as sent. */
  lemma UnknownTag(p: GatewayPayload, fits: (Shape, Json) -> bool, table: Table)
    requires p.op !in {1, 7, 9, 10, 11}
    requires TagKind(table, p.t.GetOr("")) == None
    ensures Classify(p, fits, table) == Failure(UnknownEventType(p.t.GetOr("")))
  {
  }

  /** A frame with no tag and no control opcode is an unknown event type "". */
  lemma MissingTag(p: GatewayPayload, fits: (Shape, Json) -> bool, table: Table)
    requires p.op !in {1, 7, 9, 10, 11}
    requires p.t.None?
    ensures Classify(p, fits, table) == Failure(UnknownEventType(""))
  {
    TagKindEmpty(table);
  }

  /** A tag the table knows, in any mix of cases, hands `d` to that kind's arm. */
  lemma KnownTag(p: GatewayPayload, fits: (Shape, Json) -> bool, table: Table, k: EventTypes.EventType)
    requires p.op !in {1, 7, 9, 10, 11}
    requires p.t.Some? && EventTypes.Upper(p.t.value) == TagOf(table, k)
    ensures Classify(p, fits, table).Success? <==> DecodeDispatch(k, p.d, fits).Success?
    ensures Classify(p, fits, table).Success? ==> Classify(p, fits, table).value == (DecodeDispatch(k, p.d, fits).value, p.s)
    ensures Classify(p, fits, table).Failure? ==> Classify(p, fits, table).error == DecodeDispatch(k, p.d, fits).error
  {
    TagKindSome(table, p.t.value, k);
  }

  /** A one-payload kind yields its own variant exactly when `d` has its shape. */
  lemma DispatchIff(k: EventTypes.EventType, d: Json, fits: (Shape, Json) -> bool)
    requires !k.Resumed? && !k.GuildCreate?
    ensures DecodeDispatch(k, d, fits).Success? <==> fits(ShapeOf(k), d)
    ensures DecodeDispatch(k, d, fits).Success? ==> DecodeDispatch(k, d, fits).value == Dispatched(k, d)
  {
  }

  /** `RESUMED` never looks at `d`. */
  lemma ResumedIgnoresData(d: Json, fits: (Shape, Json) -> bool)
    ensures DecodeDispatch(EventTypes.Resumed, d, fits) == Success(Resumed)
  {
  }

  /** GUILD_CREATE prefers the full guild, falls back to the unavailable guild, and
      never yields both or neither. */
  lemma GuildCreateFallback(d: Json, fits: (Shape, Json) -> bool)
    ensures DecodeDispatch(EventTypes.GuildCreate, d, fits) == Success(GuildCreate(Some(d), None))
      <==> fits(GuildShape, d)
    ensures DecodeDispatch(EventTypes.GuildCreate, d, fits) == Success(GuildCreate(None, Some(d)))
      <==> !fits(GuildShape, d) && fits(UnavailableGuildShape, d)
    ensures DecodeDispatch(EventTypes.GuildCreate, d, fits).Failure?
      <==> !fits(GuildShape, d) && !fits(UnavailableGuildShape, d)
    ensures DecodeDispatch(EventTypes.GuildCreate, d, fits).Success? ==>
      var ev := DecodeDispatch(EventTypes.GuildCreate, d, fits).value;
      ev.GuildCreate? && ev.guild.Some? != ev.unavailable.Some?
  {
  }

  // ----- the auto-moderation tags -----

  /** The decoder as written reports the auto-moderation events Discord sends as
      unknown event types, whatever their payload; the corrected decoder hands them to
      their arm. */
  lemma AsWrittenRejectsAutoModeration(p: GatewayPayload, fits: (Shape, Json) -> bool, k: EventTypes.EventType)
    requires p.op !in {1, 7, 9, 10, 11}
    requires EventTypes.IsAutoModeration(k) && p.t == Some(EventTypes.Key(k))
    ensures Classify(p, fits, AsWritten) == Failure(UnknownEventType(EventTypes.Key(k)))
    ensures Classify(p, fits, Corrected) ==
      if fits(ShapeOf(k), p.d) then Success((Dispatched(k, p.d), p.s)) else Failure(FailedToParse(k))
  {
    EventTypes.AsWrittenMissesAutoModeration(k);
  }

  /** Only the tags the repository spells AUTOMODERATION_* reach the auto-moderation arms
      of the decoder as written; the corrected decoder does not know them. */
  lemma AsWrittenAcceptsMisspelling(p: GatewayPayload, fits: (Shape, Json) -> bool, k: EventTypes.EventType)
    requires p.op !in {1, 7, 9, 10, 11}
    requires EventTypes.IsAutoModeration(k) && p.t == Some(EventTypes.KeyAsWritten(k))
    ensures Classify(p, fits, AsWritten) ==
      if fits(ShapeOf(k), p.d) then Success((Dispatched(k, p.d), p.s)) else Failure(FailedToParse(k))
    ensures Classify(p, fits, Corrected) == Failure(UnknownEventType(EventTypes.KeyAsWritten(k)))
  {
    EventTypes.CorrectedRejectsMisspelling(k);
  }

  // ----- the frames that decode to a given event -----

  /** The events the decoder can return: those whose payload has the shape it is
      checked against, with GUILD_CREATE's preference for the full guild. */
  predicate Decodable(ev: ReceiveEvent, fits: (Shape, Json) -> bool) {
    match ev
    case Hello(h) => fits(HelloShape, h)
    case GuildCreate(g, u) =>
      (g.Some? && u.None? && fits(GuildShape, g.value))
      || (g.None? && u.Some? && !fits(GuildShape, u.value) && fits(UnavailableGuildShape, u.value))
    case Dispatched(k, d) => !k.Resumed? && !k.GuildCreate? && fits(ShapeOf(k), d)
    case _ => true
  }

  /** A frame carrying `ev`: its opcode, its payload, and for dispatch events the tag
      the table expects. */
  function Frame(ev: ReceiveEvent, s: Option<nat>, table: Table): GatewayPayload {
    match ev
    case Hello(h) => GatewayPayload(10, h, s, None)
    case Heartbeat => GatewayPayload(1, Null, s, None)
    case Reconnect => GatewayPayload(7, Null, s, None)
    case InvalidSession(b) => GatewayPayload(9, Bool(b), s, None)
    case HeartbeatAck => GatewayPayload(11, Null, s, None)
    case Resumed => GatewayPayload(0, Null, s, Some(TagOf(table, EventTypes.Resumed)))
    case GuildCreate(g, u) =>
      GatewayPayload(0, if g.Some? then g.value else u.GetOr(Null), s, Some(TagOf(table, EventTypes.GuildCreate)))
    case Dispatched(k, d) => GatewayPayload(0, d, s, Some(TagOf(table, k)))
  }

  /** A dispatch frame carrying the table's tag for `k` goes to `k`'s arm. */
  lemma ClassifyTagged(p: GatewayPayload, fits: (Shape, Json) -> bool, table: Table, k: EventTypes.EventType)
    requires p.op == 0 && p.t == Some(TagOf(table, k))
    ensures DecodeDispatch(k, p.d, fits).Success? ==>
      Classify(p, fits, table) == Success((DecodeDispatch(k, p.d, fits).value, p.s))
  {
    TagKindOf(table, k);
  }

  /** Every event the decoder can return is decoded from its own frame, with the same
      sequence number. */
  lemma DecodeFrame(ev: ReceiveEvent, s: Option<nat>, fits: (Shape, Json) -> bool, table: Table)
    requires Decodable(ev, fits)
    requires s.Some? ==> s.value < U64_LIMIT
    ensures DecodeDocument(ToValue(Frame(ev, s, table)), fits, table) == Success((ev, s))
  {
    var p := Frame(ev, s, table);
    FromValueToValue(p);
    assert DecodeDocument(ToValue(p), fits, table) == Classify(p, fits, table);
    match ev
    case Resumed => ClassifyTagged(p, fits, table, EventTypes.Resumed);
    case GuildCreate(_, _) => ClassifyTagged(p, fits, table, EventTypes.GuildCreate);
    case Dispatched(k, _) => ClassifyTagged(p, fits, table, k);
    case _ =>
  }

  /** Conversely, whatever the decoder returns is decodable. */
  lemma DecodedIsDecodable(doc: Json, fits: (Shape, Json) -> bool, table: Table)
    requires DecodeDocument(doc, fits, table).Success?
    ensures Decodable(DecodeDocument(doc, fits, table).value.0, fits)
  {
  }
}
