/** The outbound half of the gateway: `GatewaySendEvent::to_json_bytes`
    (src/types.rs:130-236), which builds the `{"op": n, "d": ...}` frame for each of the
    six commands a bot sends. The model stops at the JSON value that `json!` builds;
    its rendering to text is serde_json's. */
module SendEvents {
  import opened Wrappers
  import opened Json
  import opened Types

  /** `GatewayIdentifyProperties` (src/types.rs:19-23). */
  datatype IdentifyProperties = IdentifyProperties(os: string, browser: string, device: string)

  /** `GatewayPresenceUpdate` (src/types.rs:78-84). Each activity is kept as the JSON
      value serde writes for it; the `GatewayActivity` struct is not part of this model. */
  datatype PresenceUpdate =
    PresenceUpdate(since: Option<nat>, activities: Option<seq<Json>>, status: string, afk: bool)

  /** `GatewaySendEvent` (src/types.rs:86-128). */
  datatype SendEvent =
    | Identify(token: string, properties: IdentifyProperties, compress: Option<bool>,
               largeThreshold: Option<nat>, shard: Option<(nat, nat)>,
               presence: Option<PresenceUpdate>, guildSubscriptions: Option<bool>, intents: nat)
    | Resume(token: string, sessionId: string, seqNum: nat)
    | Heartbeat(lastSeq: Option<nat>)
    | RequestGuildMembers(guildId: string, query: Option<string>, limit: nat,
                          presences: Option<bool>, userIds: Option<seq<string>>, nonce: string)
    | UpdateVoiceState(guildId: string, channelId: Option<string>, selfMute: bool, selfDeaf: bool)
    | UpdatePresence(since: Option<nat>, activities: Option<seq<Json>>, status: string, afk: bool)

  /** The `compress`, `large_threshold` and `shard` Identify sends when they are absent. */
  const DEFAULT_COMPRESS: bool := false
  const DEFAULT_LARGE_THRESHOLD: nat := 50
  const DEFAULT_SHARD: (nat, nat) := (0, 1)

  // ----- serialising -----

  function ShardJson(sh: (nat, nat)): Json {
    Array([Int(sh.0), Int(sh.1)])
  }

  function OptArray(o: Option<seq<Json>>): Json {
    match o
    case None => Null
    case Some(xs) => Array(xs)
  }

  function OptStrArray(o: Option<seq<string>>): Json {
    match o
    case None => Null
    case Some(xs) => StrArray(xs)
  }

  function PropertiesJson(p: IdentifyProperties): Json {
    Object(map["os" := Str(p.os), "browser" := Str(p.browser), "device" := Str(p.device)])
  }

  /** The derived `Serialize` of `GatewayPresenceUpdate`, which is also the `d` of an
      UpdatePresence frame. */
  function PresenceJson(since: Option<nat>, activities: Option<seq<Json>>, status: string, afk: bool): Json {
    Object(map["since" := OptInt(since), "activities" := OptArray(activities),
               "status" := Str(status), "afk" := Bool(afk)])
  }

  function OptPresenceJson(o: Option<PresenceUpdate>): Json {
    match o
    case None => Null
    case Some(p) => PresenceJson(p.since, p.activities, p.status, p.afk)
  }

  /** The opcode Discord assigns to each command. */
  function Opcode(ev: SendEvent): nat {
    match ev
    case Identify(_, _, _, _, _, _, _, _) => 2
    case Resume(_, _, _) => 6
    case Heartbeat(_) => 1
    case RequestGuildMembers(_, _, _, _, _, _) => 8
    case UpdateVoiceState(_, _, _, _) => 4
    case UpdatePresence(_, _, _, _) => 3
  }

  function IdentifyJson(ev: SendEvent): Json
    requires ev.Identify?
  {
    Object(map[
      "token" := Str(ev.token),
      "properties" := PropertiesJson(ev.properties),
      "compress" := Bool(ev.compress.GetOr(DEFAULT_COMPRESS)),
      "large_threshold" := Int(ev.largeThreshold.GetOr(DEFAULT_LARGE_THRESHOLD)),
      "shard" := ShardJson(ev.shard.GetOr(DEFAULT_SHARD)),
      "presence" := OptPresenceJson(ev.presence),
      "guild_subscriptions" := OptBool(ev.guildSubscriptions),
      "intents" := Int(ev.intents)])
  }

  function RequestGuildMembersJson(ev: SendEvent): Json
    requires ev.RequestGuildMembers?
  {
    Object(map[
      "guild_id" := Str(ev.guildId), "query" := OptStr(ev.query), "limit" := Int(ev.limit),
      "presences" := OptBool(ev.presences), "user_ids" := OptStrArray(ev.userIds),
      "nonce" := Str(ev.nonce)])
  }

  /** The `d` of each command's frame: the last sequence number for a heartbeat, an
      object with the command's own members for every other command. */
  function Payload(ev: SendEvent): (r: Json)
    ensures ev.Heartbeat? <==> !r.Object?
    ensures ev.Heartbeat? ==> r.Null? == ev.lastSeq.None?
    ensures ev.Identify? ==> r.fields.Keys == {"token", "properties", "compress", "large_threshold",
      "shard", "presence", "guild_subscriptions", "intents"}
    ensures ev.Resume? ==> r.fields.Keys == {"token", "session_id", "seq"}
    ensures ev.RequestGuildMembers? ==> r.fields.Keys == {"guild_id", "query", "limit", "presences",
      "user_ids", "nonce"}
    ensures ev.UpdateVoiceState? ==> r.fields.Keys == {"guild_id", "channel_id", "self_mute", "self_deaf"}
    ensures ev.UpdatePresence? ==> r.fields.Keys == {"since", "activities", "status", "afk"}
  {
    match ev
    case Identify(_, _, _, _, _, _, _, _) => IdentifyJson(ev)
    case Resume(token, sessionId, seqNum) =>
      Object(map["token" := Str(token), "session_id" := Str(sessionId), "seq" := Int(seqNum)])
    case Heartbeat(lastSeq) => OptInt(lastSeq)
    case RequestGuildMembers(_, _, _, _, _, _) => RequestGuildMembersJson(ev)
    case UpdateVoiceState(guildId, channelId, selfMute, selfDeaf) =>
      Object(map["guild_id" := Str(guildId), "channel_id" := OptStr(channelId),
                 "self_mute" := Bool(selfMute), "self_deaf" := Bool(selfDeaf)])
    case UpdatePresence(since, activities, status, afk) => PresenceJson(since, activities, status, afk)
  }

  /** The `json!` value `to_json_bytes` renders: the command's opcode under `op` and
      its fields under `d`. */
  function ToJson(ev: SendEvent): (r: Json)
    ensures r.Object? && r.fields.Keys == {"op", "d"} && r.fields["d"] == Payload(ev)
    ensures ev.Identify? ==> r.fields["op"] == Int(2)
    ensures ev.Resume? ==> r.fields["op"] == Int(6)
    ensures ev.Heartbeat? ==> r.fields["op"] == Int(1)
    ensures ev.RequestGuildMembers? ==> r.fields["op"] == Int(8)
    ensures ev.UpdateVoiceState? ==> r.fields["op"] == Int(4)
    ensures ev.UpdatePresence? ==> r.fields["op"] == Int(3)
  {
    Object(map["op" := Int(Opcode(ev)), "d" := Payload(ev)])
  }

  /** What the frame determines: the command with Identify's absent fields replaced by
      the defaults it sends. */
  function Normalize(ev: SendEvent): (r: SendEvent)
    ensures r.Identify? <==> ev.Identify?
    ensures r.Identify? ==> r.compress.Some? && r.largeThreshold.Some? && r.shard.Some?
    ensures !ev.Identify? ==> r == ev
  {
    match ev
    case Identify(token, properties, compress, largeThreshold, shard, presence, guildSubscriptions, intents) =>
      Identify(token, properties, Some(compress.GetOr(DEFAULT_COMPRESS)),
               Some(largeThreshold.GetOr(DEFAULT_LARGE_THRESHOLD)), Some(shard.GetOr(DEFAULT_SHARD)),
               presence, guildSubscriptions, intents)
    case _ => ev
  }

  // ----- reading a frame back -----

  function AsStr(j: Json): Option<string> {
    if j.Str? then Some(j.s) else None
  }

  function AsNat(j: Json): Option<nat> {
    if j.Int? && j.i >= 0 then Some(j.i) else None
  }

  function AsBool(j: Json): Option<bool> {
    if j.Bool? then Some(j.b) else None
  }

  function AsShard(j: Json): Option<(nat, nat)> {
    if j.Array? && |j.items| == 2 && AsNat(j.items[0]).Some? && AsNat(j.items[1]).Some? then
      Some((AsNat(j.items[0]).value, AsNat(j.items[1]).value))
    else None
  }

  function AsOptArray(j: Json): Option<Option<seq<Json>>> {
    match j
    case Null => Some(None)
    case Array(xs) => Some(Some(xs))
    case _ => None
  }

  function AsOptStrArray(j: Json): Option<Option<seq<string>>> {
    if j.Null? then Some(None)
    else match AsStrArray(j)
      case Some(xs) => Some(Some(xs))
      case None => None
  }

  function AsProperties(j: Json): Option<IdentifyProperties> {
    if !j.Object? then None
    else
      match (AsStr(Member(j.fields, "os")), AsStr(Member(j.fields, "browser")), AsStr(Member(j.fields, "device")))
      case (Some(os), Some(browser), Some(device)) => Some(IdentifyProperties(os, browser, device))
      case _ => None
  }

  function AsPresence(j: Json): Option<PresenceUpdate> {
    if !j.Object? then None
    else
      var f := j.fields;
      match (AsOptNat(Member(f, "since")), AsOptArray(Member(f, "activities")),
             AsStr(Member(f, "status")), AsBool(Member(f, "afk")))
      case (Some(since), Some(activities), Some(status), Some(afk)) =>
        Some(PresenceUpdate(since, activities, status, afk))
      case _ => None
  }

  function AsOptPresence(j: Json): Option<Option<PresenceUpdate>> {
    if j.Null? then Some(None)
    else match AsPresence(j)
      case Some(p) => Some(Some(p))
      case None => None
  }

  function IdentifyFrom(f: map<string, Json>): Option<SendEvent> {
    match (AsStr(Member(f, "token")), AsProperties(Member(f, "properties")),
           AsBool(Member(f, "compress")), AsNat(Member(f, "large_threshold")),
           AsShard(Member(f, "shard")), AsOptPresence(Member(f, "presence")),
           AsOptBool(Member(f, "guild_subscriptions")), AsNat(Member(f, "intents")))
    case (Some(token), Some(properties), Some(compress), Some(largeThreshold),
          Some(shard), Some(presence), Some(guildSubscriptions), Some(intents)) =>
      Some(Identify(token, properties, Some(compress), Some(largeThreshold), Some(shard),
                    presence, guildSubscriptions, intents))
    case _ => None
  }

  function ResumeFrom(f: map<string, Json>): Option<SendEvent> {
    match (AsStr(Member(f, "token")), AsStr(Member(f, "session_id")), AsNat(Member(f, "seq")))
    case (Some(token), Some(sessionId), Some(seqNum)) => Some(Resume(token, sessionId, seqNum))
    case _ => None
  }

  function RequestGuildMembersFrom(f: map<string, Json>): Option<SendEvent> {
    match (AsStr(Member(f, "guild_id")), AsOptStr(Member(f, "query")), AsNat(Member(f, "limit")),
           AsOptBool(Member(f, "presences")), AsOptStrArray(Member(f, "user_ids")),
           AsStr(Member(f, "nonce")))
    case (Some(guildId), Some(query), Some(limit), Some(presences), Some(userIds), Some(nonce)) =>
      Some(RequestGuildMembers(guildId, query, limit, presences, userIds, nonce))
    case _ => None
  }

  function UpdateVoiceStateFrom(f: map<string, Json>): Option<SendEvent> {
    match (AsStr(Member(f, "guild_id")), AsOptStr(Member(f, "channel_id")),
           AsBool(Member(f, "self_mute")), AsBool(Member(f, "self_deaf")))
    case (Some(guildId), Some(channelId), Some(selfMute), Some(selfDeaf)) =>
      Some(UpdateVoiceState(guildId, channelId, selfMute, selfDeaf))
    case _ => None
  }

  /** The command a frame carries, if it is one of the six; the inverse of `ToJson`
      up to Identify's defaults. */
  function FromJson(j: Json): Option<SendEvent> {
    if !(j.Object? && "op" in j.fields && "d" in j.fields && j.fields["op"].Int?) then None
    else
      var d := j.fields["d"];
      match j.fields["op"].i
      case 1 =>
        (match AsOptNat(d)
         case Some(lastSeq) => Some(Heartbeat(lastSeq))
         case None => None)
      case 3 =>
        (match AsPresence(d)
         case Some(p) => Some(UpdatePresence(p.since, p.activities, p.status, p.afk))
         case None => None)
      case _ =>
        if !d.Object? then None
        else if j.fields["op"].i == 2 then IdentifyFrom(d.fields)
        else if j.fields["op"].i == 6 then ResumeFrom(d.fields)
        else if j.fields["op"].i == 8 then RequestGuildMembersFrom(d.fields)
        else if j.fields["op"].i == 4 then UpdateVoiceStateFrom(d.fields)
        else None
  }

  // ----- what the serialiser promises -----

  lemma PresenceRoundTrip(since: Option<nat>, activities: Option<seq<Json>>, status: string, afk: bool)
    ensures AsPresence(PresenceJson(since, activities, status, afk))
      == Some(PresenceUpdate(since, activities, status, afk))
  {
    var f := PresenceJson(since, activities, status, afk).fields;
    assert Member(f, "since") == OptInt(since);
    assert Member(f, "activities") == OptArray(activities);
    assert Member(f, "status") == Str(status) && Member(f, "afk") == Bool(afk);
  }

  lemma StrArrayOptRoundTrip(o: Option<seq<string>>)
    ensures AsOptStrArray(OptStrArray(o)) == Some(o)
  {
    if o.Some? {
      StrArrayRoundTrip(o.value);
    }
  }

  lemma IdentifyMembersFirst(ev: SendEvent)
    requires ev.Identify?
    ensures IdentifyJson(ev).Object?
    ensures Member(IdentifyJson(ev).fields, "token") == Str(ev.token)
    ensures Member(IdentifyJson(ev).fields, "properties") == PropertiesJson(ev.properties)
    ensures Member(IdentifyJson(ev).fields, "compress") == Bool(ev.compress.GetOr(DEFAULT_COMPRESS))
    ensures Member(IdentifyJson(ev).fields, "large_threshold")
      == Int(ev.largeThreshold.GetOr(DEFAULT_LARGE_THRESHOLD))
  {
  }

  lemma IdentifyMembersSecond(ev: SendEvent)
    requires ev.Identify?
    ensures IdentifyJson(ev).Object?
    ensures Member(IdentifyJson(ev).fields, "shard") == ShardJson(ev.shard.GetOr(DEFAULT_SHARD))
    ensures Member(IdentifyJson(ev).fields, "presence") == OptPresenceJson(ev.presence)
    ensures Member(IdentifyJson(ev).fields, "guild_subscriptions") == OptBool(ev.guildSubscriptions)
    ensures Member(IdentifyJson(ev).fields, "intents") == Int(ev.intents)
  {
  }

  lemma PropertiesRoundTrip(p: IdentifyProperties)
    ensures AsProperties(PropertiesJson(p)) == Some(p)
  {
    var f := PropertiesJson(p).fields;
    assert Member(f, "os") == Str(p.os) && Member(f, "browser") == Str(p.browser);
    assert Member(f, "device") == Str(p.device);
  }

  lemma IdentifyRoundTrip(ev: SendEvent)
    requires ev.Identify?
    ensures IdentifyJson(ev).Object? && IdentifyFrom(IdentifyJson(ev).fields) == Some(Normalize(ev))
  {
    IdentifyMembersFirst(ev);
    IdentifyMembersSecond(ev);
    PropertiesRoundTrip(ev.properties);
    if ev.presence.Some? {
      var p := ev.presence.value;
      PresenceRoundTrip(p.since, p.activities, p.status, p.afk);
    }
    OptRoundTrips(None, None, ev.guildSubscriptions);
  }

  lemma ResumeRoundTrip(ev: SendEvent)
    requires ev.Resume?
    ensures Payload(ev).Object? && ResumeFrom(Payload(ev).fields) == Some(ev)
  {
    var f := Payload(ev).fields;
    assert Member(f, "token") == Str(ev.token) && Member(f, "session_id") == Str(ev.sessionId);
    assert Member(f, "seq") == Int(ev.seqNum);
  }

  lemma RequestGuildMembersRoundTrip(ev: SendEvent)
    requires ev.RequestGuildMembers?
    ensures RequestGuildMembersJson(ev).Object?
    ensures RequestGuildMembersFrom(RequestGuildMembersJson(ev).fields) == Some(ev)
  {
    var f := RequestGuildMembersJson(ev).fields;
    assert Member(f, "guild_id") == Str(ev.guildId) && Member(f, "query") == OptStr(ev.query);
    assert Member(f, "limit") == Int(ev.limit) && Member(f, "presences") == OptBool(ev.presences);
    assert Member(f, "user_ids") == OptStrArray(ev.userIds) && Member(f, "nonce") == Str(ev.nonce);
    OptRoundTrips(ev.query, None, ev.presences);
    StrArrayOptRoundTrip(ev.userIds);
  }

  lemma UpdateVoiceStateRoundTrip(ev: SendEvent)
    requires ev.UpdateVoiceState?
    ensures Payload(ev).Object? && UpdateVoiceStateFrom(Payload(ev).fields) == Some(ev)
  {
    var f := Payload(ev).fields;
    assert Member(f, "guild_id") == Str(ev.guildId) && Member(f, "channel_id") == OptStr(ev.channelId);
    assert Member(f, "self_mute") == Bool(ev.selfMute) && Member(f, "self_deaf") == Bool(ev.selfDeaf);
    OptRoundTrips(ev.channelId, None, None);
  }

  /** Reading a frame back gives the command it was built from, with Identify's
      defaults filled in. */
  lemma FromJsonToJson(ev: SendEvent)
    ensures FromJson(ToJson(ev)) == Some(Normalize(ev))
  {
    match ev
    case Identify(_, _, _, _, _, _, _, _) => IdentifyRoundTrip(ev);
    case Resume(_, _, _) => ResumeRoundTrip(ev);
    case Heartbeat(lastSeq) => OptRoundTrips(None, lastSeq, None);
    case RequestGuildMembers(_, _, _, _, _, _) => RequestGuildMembersRoundTrip(ev);
    case UpdateVoiceState(_, _, _, _) => UpdateVoiceStateRoundTrip(ev);
    case UpdatePresence(since, activities, status, afk) =>
      PresenceRoundTrip(since, activities, status, afk);
  }

  /** Filling in the defaults does not change the frame. */
  lemma ToJsonNormalize(ev: SendEvent)
    ensures ToJson(Normalize(ev)) == ToJson(ev)
  {
  }

  /** Two commands give the same frame exactly when they agree once Identify's
      defaults are filled in. */
  lemma ToJsonInjective(a: SendEvent, b: SendEvent)
    ensures ToJson(a) == ToJson(b) <==> Normalize(a) == Normalize(b)
  {
    FromJsonToJson(a);
    FromJsonToJson(b);
    ToJsonNormalize(a);
    ToJsonNormalize(b);
  }

  /** Identify sends `compress` false, `large_threshold` 50 and `shard` [0, 1] when
      they are absent, and the given values when present. */
  lemma IdentifyDefaults(ev: SendEvent)
    requires ev.Identify?
    ensures Payload(ev).Object?
    ensures Payload(ev).fields["compress"]
      == (if ev.compress.Some? then Bool(ev.compress.value) else Bool(false))
    ensures Payload(ev).fields["large_threshold"]
      == (if ev.largeThreshold.Some? then Int(ev.largeThreshold.value) else Int(50))
    ensures Payload(ev).fields["shard"]
      == (if ev.shard.Some? then Array([Int(ev.shard.value.0), Int(ev.shard.value.1)])
          else Array([Int(0), Int(1)]))
  {
  }

  /** A heartbeat's payload is the bare sequence number, or null; never an object. */
  lemma HeartbeatPayload(lastSeq: Option<nat>)
    ensures Payload(Heartbeat(lastSeq)) == (if lastSeq.Some? then Int(lastSeq.value) else Null)
    ensures !Payload(Heartbeat(lastSeq)).Object?
  {
  }

  /** Resume sends exactly its token, session id and sequence number. */
  lemma ResumePayload(token: string, sessionId: string, seqNum: nat)
    ensures Payload(Resume(token, sessionId, seqNum))
      == Object(map["token" := Str(token), "session_id" := Str(sessionId), "seq" := Int(seqNum)])
  {
  }

  /** Identify's `presence` is written exactly as the UpdatePresence payload with the
      same fields. */
  lemma IdentifyPresenceAsUpdatePresence(ev: SendEvent)
    requires ev.Identify? && ev.presence.Some?
    ensures Payload(ev).Object?
    ensures Payload(ev).fields["presence"] == Payload(UpdatePresence(
      ev.presence.value.since, ev.presence.value.activities, ev.presence.value.status, ev.presence.value.afk))
  {
  }
}
