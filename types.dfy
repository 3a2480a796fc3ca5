/** The wire-level vocabulary of src/types.rs: the endpoint constants, the gateway
    envelope `GatewayPayload` and the payload shapes the gateway decoder asks serde for.

    serde is not modelled: its JSON text parser and its derived deserialisers for the
    payload structs are given to the decoder as a `Serde` record of two functions. Only
    the envelope's own deserialiser is written out, because the decoder's behaviour on a
    malformed envelope depends on it. */
module Types {
  import opened Wrappers
  import opened Json

  /** The WebSocket address, the query it ends with, and the REST base address
      (src/types.rs:5-7). */
  const DISCORD_GATEWAY: string := "wss://gateway.discord.gg/?v=9&encoding=json"
  const GATEWAY_PARAMS: string := "?v=9&encoding=json"
  const HTTP_URL: string := "https://discord.com/api/v9"

  /** Bounds of Rust's `u32` and `u64`. */
  const U32_LIMIT: int := 0x1_0000_0000
  const U64_LIMIT: int := 0x1_0000_0000_0000_0000

  /** One gateway frame `{op, d, s, t}` (src/types.rs:12-17). */
  datatype GatewayPayload = GatewayPayload(op: nat, d: Json, s: Option<nat>, t: Option<string>)

  /** The values the Rust fields can hold: `op` is a `u32`, `s` a `u64`. */
  predicate InRange(p: GatewayPayload) {
    p.op < U32_LIMIT && (p.s.Some? ==> p.s.value < U64_LIMIT)
  }

  // ----- the derived serde implementation of GatewayPayload -----

  /** A `u32` field: an integer in range. */
  function AsU32(j: Json): (r: Option<nat>)
    ensures r.Some? <==> j.Int? && 0 <= j.i < U32_LIMIT
    ensures r.Some? ==> r.value == j.i
  {
    if j.Int? && 0 <= j.i < U32_LIMIT then Some(j.i) else None
  }

  /** An `Option<u64>` field: `null` is `None`, an integer in range is `Some`. */
  function AsOptU64(j: Json): (r: Option<Option<nat>>)
    ensures r == Some(None) <==> j.Null?
    ensures r.Some? && r.value.Some? <==> j.Int? && 0 <= j.i < U64_LIMIT
    ensures r.Some? && r.value.Some? ==> r.value.value == j.i
  {
    match j
    case Null => Some(None)
    case Int(n) => if 0 <= n < U64_LIMIT then Some(Some(n)) else None
    case _ => None
  }

  /** An optional member of an object: absent is read as `null`, as serde reads a
      missing `Option` field. */
  function Member(fields: map<string, Json>, name: string): Json {
    if name in fields then fields[name] else Null
  }

  /** The four fields, once each has been found. */
  function Fields(op: Json, d: Json, s: Json, t: Json): (r: Option<GatewayPayload>)
    ensures r.Some? <==> AsU32(op).Some? && AsOptU64(s).Some? && AsOptStr(t).Some?
    ensures r.Some? ==> r.value == GatewayPayload(op.i, d, AsOptU64(s).value, AsOptStr(t).value)
  {
    match (AsU32(op), AsOptU64(s), AsOptStr(t))
    case (Some(o), Some(sq), Some(tag)) => Some(GatewayPayload(o, d, sq, tag))
    case _ => None
  }

  /** `GatewayPayload`'s derived `Deserialize`, applied to a parsed document. An object
      needs `op` and `d`, and may omit `s` and `t`; members it does not know are
      ignored. An array must hold exactly the four fields in declaration order. Anything
      else is rejected. Whatever it accepts fits the Rust types. */
  function FromValue(doc: Json): (r: Option<GatewayPayload>)
    ensures r.Some? ==> InRange(r.value)
    ensures doc.Object? && ("op" !in doc.fields || "d" !in doc.fields) ==> r.None?
    ensures !doc.Object? && !doc.Array? ==> r.None?
    ensures doc.Array? && |doc.items| != 4 ==> r.None?
  {
    match doc
    case Object(fields) =>
      if "op" in fields && "d" in fields then
        Fields(fields["op"], fields["d"], Member(fields, "s"), Member(fields, "t"))
      else None
    case Array(items) =>
      if |items| == 4 then Fields(items[0], items[1], items[2], items[3]) else None
    case _ => None
  }

  /** `GatewayPayload`'s derived `Serialize`: an object with all four members, `None`
      written as `null`. */
  function ToValue(p: GatewayPayload): (r: Json)
    ensures r.Object? && r.fields.Keys == {"op", "d", "s", "t"}
  {
    Object(map["op" := Int(p.op), "d" := p.d, "s" := OptInt(p.s), "t" := OptStr(p.t)])
  }

  /** Every envelope the Rust type can hold survives serialising and deserialising. */
  lemma FromValueToValue(p: GatewayPayload)
    requires InRange(p)
    ensures FromValue(ToValue(p)) == Some(p)
  {
    var f := ToValue(p).fields;
    assert f["op"] == Int(p.op) && f["d"] == p.d;
    assert Member(f, "s") == OptInt(p.s) && Member(f, "t") == OptStr(p.t);
  }

  // ----- payload shapes -----

  /** The payload structs of src/types.rs that the gateway decoder deserialises a
      frame's `d` into, one constructor per struct. */
  datatype Shape =
    | HelloShape | ReadyShape | ApplicationCommandPermissionsUpdateShape
    | AutoModerationRuleCreateShape | AutoModerationRuleUpdateShape
    | AutoModerationRuleDeleteShape | AutoModerationActionExecutionShape
    | ChannelShape | ChannelPinsUpdateShape | ThreadDeleteShape | ThreadListSyncShape
    | ThreadMemberShape | ThreadMembersUpdateShape | EntitlementShape | GuildShape
    | UnavailableGuildShape | AuditLogEntryShape | GuildBanAddShape | GuildBanRemoveShape
    | GuildEmojisUpdateShape | GuildStickersUpdateShape | GuildIntegrationsUpdateShape
    | GuildMemberShape | GuildMemberRemoveShape | GuildMemberUpdateShape
    | GuildMembersChunkShape | GuildRoleCreateShape | GuildRoleUpdateShape
    | GuildRoleDeleteShape | GuildScheduledEventShape | GuildScheduledEventUserShape
    | IntegrationShape | IntegrationDeleteShape | InteractionShape | InviteCreateShape
    | InviteDeleteShape | MessageShape | MessageDeleteShape | MessageDeleteBulkShape
    | MessageReactionAddShape | MessageReactionRemoveShape | MessageReactionRemoveAllShape
    | MessageReactionRemoveEmojiShape | PresenceUpdateShape | StageInstanceShape
    | TypingStartShape | UserShape | VoiceStateShape | VoiceServerUpdateShape
    | WebhooksUpdateShape

  /** The parts of serde the decoder calls and the model does not define:
      `parse` is `serde_json`'s text parser (`None` on malformed text) and
      `fits(shape, d)` says whether `serde_json::from_value` accepts `d` as that struct. */
  datatype Serde = Serde(parse: seq<byte> -> Option<Json>, fits: (Shape, Json) -> bool)
}
