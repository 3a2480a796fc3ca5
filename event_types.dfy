/** The dispatch tags of the gateway: `GatewayEventType` and its `from_str`
    (src/types.rs:238-379). A dispatch frame names its event in the `t` member, an
    upper-snake-case string such as "MESSAGE_CREATE", matched without regard to case.

    Two key tables are modelled. The corrected table (`Lookup`, `FromStr`) keys every kind
    by the tag Discord sends (`Key`). The table as written (`LookupAsWritten`,
    `FromStrAsWritten`) is the repository's own: it differs only in spelling the four
    auto-moderation keys `AUTOMODERATION_*` (src/types.rs:313-316). */
module EventTypes {
  import opened Wrappers

  datatype EventType =
    Ready | Resumed | ApplicationCommandPermissionsUpdate | AutoModerationRuleCreate
    | AutoModerationRuleUpdate | AutoModerationRuleDelete | AutoModerationActionExecution
    | ChannelCreate | ChannelUpdate | ChannelDelete | ChannelPinsUpdate | ThreadCreate
    | ThreadUpdate | ThreadDelete | ThreadListSync | ThreadMemberUpdate | ThreadMembersUpdate
    | EntitlementCreate | EntitlementUpdate | EntitlementDelete | GuildCreate | GuildUpdate
    | GuildDelete | GuildAuditLogEntryCreate | GuildBanAdd | GuildBanRemove | GuildEmojisUpdate
    | GuildStickersUpdate | GuildIntegrationsUpdate | GuildMemberAdd | GuildMemberRemove
    | GuildMemberUpdate | GuildMembersChunk | GuildRoleCreate | GuildRoleUpdate
    | GuildRoleDelete | GuildScheduledEventCreate | GuildScheduledEventUpdate
    | GuildScheduledEventDelete | GuildScheduledEventUserAdd | GuildScheduledEventUserRemove
    | IntegrationCreate | IntegrationUpdate | IntegrationDelete | InteractionCreate
    | InviteCreate | InviteDelete | MessageCreate | MessageUpdate | MessageDelete
    | MessageDeleteBulk | MessageReactionAdd | MessageReactionRemove | MessageReactionRemoveAll
    | MessageReactionRemoveEmoji | PresenceUpdate | StageInstanceCreate | StageInstanceUpdate
    | StageInstanceDelete | TypingStart | UserUpdate | VoiceStateUpdate | VoiceServerUpdate
    | WebhooksUpdate

  /** ASCII upper-casing of one character; every other character is kept. */
  function UpperChar(c: char): (r: char)
    ensures !('a' <= r <= 'z')
    ensures 'a' <= c <= 'z' ==> r as int == c as int - 32
    ensures !('a' <= c <= 'z') ==> r == c
  {
    if 'a' <= c <= 'z' then (c as int - 32) as char else c
  }

  /** `str::to_uppercase`, restricted to ASCII. */
  function Upper(s: string): (r: string)
    ensures |r| == |s|
    ensures forall i :: 0 <= i < |s| ==> r[i] == UpperChar(s[i])
    ensures IsUpper(r)
  {
    seq(|s|, i requires 0 <= i < |s| => UpperChar(s[i]))
  }

  /** No lower-case ASCII letter in `s`. */
  predicate IsUpper(s: string) {
    forall i :: 0 <= i < |s| ==> !('a' <= s[i] <= 'z')
  }

  /** The tag Discord sends for each event kind. */
  function Key(k: EventType): string {
    match k
    case Ready => "READY"
    case Resumed => "RESUMED"
    case ApplicationCommandPermissionsUpdate => "APPLICATION_COMMAND_PERMISSIONS_UPDATE"
    case AutoModerationRuleCreate => "AUTO_MODERATION_RULE_CREATE"
    case AutoModerationRuleUpdate => "AUTO_MODERATION_RULE_UPDATE"
    case AutoModerationRuleDelete => "AUTO_MODERATION_RULE_DELETE"
    case AutoModerationActionExecution => "AUTO_MODERATION_ACTION_EXECUTION"
    case ChannelCreate => "CHANNEL_CREATE"
    case ChannelUpdate => "CHANNEL_UPDATE"
    case ChannelDelete => "CHANNEL_DELETE"
    case ChannelPinsUpdate => "CHANNEL_PINS_UPDATE"
    case ThreadCreate => "THREAD_CREATE"
    case ThreadUpdate => "THREAD_UPDATE"
    case ThreadDelete => "THREAD_DELETE"
    case ThreadListSync => "THREAD_LIST_SYNC"
    case ThreadMemberUpdate => "THREAD_MEMBER_UPDATE"
    case ThreadMembersUpdate => "THREAD_MEMBERS_UPDATE"
    case EntitlementCreate => "ENTITLEMENT_CREATE"
    case EntitlementUpdate => "ENTITLEMENT_UPDATE"
    case EntitlementDelete => "ENTITLEMENT_DELETE"
    case GuildCreate => "GUILD_CREATE"
    case GuildUpdate => "GUILD_UPDATE"
    case GuildDelete => "GUILD_DELETE"
    case GuildAuditLogEntryCreate => "GUILD_AUDIT_LOG_ENTRY_CREATE"
    case GuildBanAdd => "GUILD_BAN_ADD"
    case GuildBanRemove => "GUILD_BAN_REMOVE"
    case GuildEmojisUpdate => "GUILD_EMOJIS_UPDATE"
    case GuildStickersUpdate => "GUILD_STICKERS_UPDATE"
    case GuildIntegrationsUpdate => "GUILD_INTEGRATIONS_UPDATE"
    case GuildMemberAdd => "GUILD_MEMBER_ADD"
    case GuildMemberRemove => "GUILD_MEMBER_REMOVE"
    case GuildMemberUpdate => "GUILD_MEMBER_UPDATE"
    case GuildMembersChunk => "GUILD_MEMBERS_CHUNK"
    case GuildRoleCreate => "GUILD_ROLE_CREATE"
    case GuildRoleUpdate => "GUILD_ROLE_UPDATE"
    case GuildRoleDelete => "GUILD_ROLE_DELETE"
    case GuildScheduledEventCreate => "GUILD_SCHEDULED_EVENT_CREATE"
    case GuildScheduledEventUpdate => "GUILD_SCHEDULED_EVENT_UPDATE"
    case GuildScheduledEventDelete => "GUILD_SCHEDULED_EVENT_DELETE"
    case GuildScheduledEventUserAdd => "GUILD_SCHEDULED_EVENT_USER_ADD"
    case GuildScheduledEventUserRemove => "GUILD_SCHEDULED_EVENT_USER_REMOVE"
    case IntegrationCreate => "INTEGRATION_CREATE"
    case IntegrationUpdate => "INTEGRATION_UPDATE"
    case IntegrationDelete => "INTEGRATION_DELETE"
    case InteractionCreate => "INTERACTION_CREATE"
    case InviteCreate => "INVITE_CREATE"
    case InviteDelete => "INVITE_DELETE"
    case MessageCreate => "MESSAGE_CREATE"
    case MessageUpdate => "MESSAGE_UPDATE"
    case MessageDelete => "MESSAGE_DELETE"
    case MessageDeleteBulk => "MESSAGE_DELETE_BULK"
    case MessageReactionAdd => "MESSAGE_REACTION_ADD"
    case MessageReactionRemove => "MESSAGE_REACTION_REMOVE"
    case MessageReactionRemoveAll => "MESSAGE_REACTION_REMOVE_ALL"
    case MessageReactionRemoveEmoji => "MESSAGE_REACTION_REMOVE_EMOJI"
    case PresenceUpdate => "PRESENCE_UPDATE"
    case StageInstanceCreate => "STAGE_INSTANCE_CREATE"
    case StageInstanceUpdate => "STAGE_INSTANCE_UPDATE"
    case StageInstanceDelete => "STAGE_INSTANCE_DELETE"
    case TypingStart => "TYPING_START"
    case UserUpdate => "USER_UPDATE"
    case VoiceStateUpdate => "VOICE_STATE_UPDATE"
    case VoiceServerUpdate => "VOICE_SERVER_UPDATE"
    case WebhooksUpdate => "WEBHOOKS_UPDATE"
  }

  /** The corrected key table, on an already upper-cased string: the table of
      src/types.rs:310-376 with every kind keyed by the tag Discord sends, the four
      auto-moderation keys included. */
  function Lookup(key: string): Option<EventType> {
    match key
    case "READY" => Some(Ready)
    case "RESUMED" => Some(Resumed)
    case "APPLICATION_COMMAND_PERMISSIONS_UPDATE" => Some(ApplicationCommandPermissionsUpdate)
    case "AUTO_MODERATION_RULE_CREATE" => Some(AutoModerationRuleCreate)
    case "AUTO_MODERATION_RULE_UPDATE" => Some(AutoModerationRuleUpdate)
    case "AUTO_MODERATION_RULE_DELETE" => Some(AutoModerationRuleDelete)
    case "AUTO_MODERATION_ACTION_EXECUTION" => Some(AutoModerationActionExecution)
    case "CHANNEL_CREATE" => Some(ChannelCreate)
    case "CHANNEL_UPDATE" => Some(ChannelUpdate)
    case "CHANNEL_DELETE" => Some(ChannelDelete)
    case "CHANNEL_PINS_UPDATE" => Some(ChannelPinsUpdate)
    case "THREAD_CREATE" => Some(ThreadCreate)
    case "THREAD_UPDATE" => Some(ThreadUpdate)
    case "THREAD_DELETE" => Some(ThreadDelete)
    case "THREAD_LIST_SYNC" => Some(ThreadListSync)
    case "THREAD_MEMBER_UPDATE" => Some(ThreadMemberUpdate)
    case "THREAD_MEMBERS_UPDATE" => Some(ThreadMembersUpdate)
    case "ENTITLEMENT_CREATE" => Some(EntitlementCreate)
    case "ENTITLEMENT_UPDATE" => Some(EntitlementUpdate)
    case "ENTITLEMENT_DELETE" => Some(EntitlementDelete)
    case "GUILD_CREATE" => Some(GuildCreate)
    case "GUILD_UPDATE" => Some(GuildUpdate)
    case "GUILD_DELETE" => Some(GuildDelete)
    case "GUILD_AUDIT_LOG_ENTRY_CREATE" => Some(GuildAuditLogEntryCreate)
    case "GUILD_BAN_ADD" => Some(GuildBanAdd)
    case "GUILD_BAN_REMOVE" => Some(GuildBanRemove)
    case "GUILD_EMOJIS_UPDATE" => Some(GuildEmojisUpdate)
    case "GUILD_STICKERS_UPDATE" => Some(GuildStickersUpdate)
    case "GUILD_INTEGRATIONS_UPDATE" => Some(GuildIntegrationsUpdate)
    case "GUILD_MEMBER_ADD" => Some(GuildMemberAdd)
    case "GUILD_MEMBER_REMOVE" => Some(GuildMemberRemove)
    case "GUILD_MEMBER_UPDATE" => Some(GuildMemberUpdate)
    case "GUILD_MEMBERS_CHUNK" => Some(GuildMembersChunk)
    case "GUILD_ROLE_CREATE" => Some(GuildRoleCreate)
    case "GUILD_ROLE_UPDATE" => Some(GuildRoleUpdate)
    case "GUILD_ROLE_DELETE" => Some(GuildRoleDelete)
    case "GUILD_SCHEDULED_EVENT_CREATE" => Some(GuildScheduledEventCreate)
    case "GUILD_SCHEDULED_EVENT_UPDATE" => Some(GuildScheduledEventUpdate)
    case "GUILD_SCHEDULED_EVENT_DELETE" => Some(GuildScheduledEventDelete)
    case "GUILD_SCHEDULED_EVENT_USER_ADD" => Some(GuildScheduledEventUserAdd)
    case "GUILD_SCHEDULED_EVENT_USER_REMOVE" => Some(GuildScheduledEventUserRemove)
    case "INTEGRATION_CREATE" => Some(IntegrationCreate)
    case "INTEGRATION_UPDATE" => Some(IntegrationUpdate)
    case "INTEGRATION_DELETE" => Some(IntegrationDelete)
    case "INTERACTION_CREATE" => Some(InteractionCreate)
    case "INVITE_CREATE" => Some(InviteCreate)
    case "INVITE_DELETE" => Some(InviteDelete)
    case "MESSAGE_CREATE" => Some(MessageCreate)
    case "MESSAGE_UPDATE" => Some(MessageUpdate)
    case "MESSAGE_DELETE" => Some(MessageDelete)
    case "MESSAGE_DELETE_BULK" => Some(MessageDeleteBulk)
    case "MESSAGE_REACTION_ADD" => Some(MessageReactionAdd)
    case "MESSAGE_REACTION_REMOVE" => Some(MessageReactionRemove)
    case "MESSAGE_REACTION_REMOVE_ALL" => Some(MessageReactionRemoveAll)
    case "MESSAGE_REACTION_REMOVE_EMOJI" => Some(MessageReactionRemoveEmoji)
    case "PRESENCE_UPDATE" => Some(PresenceUpdate)
    case "STAGE_INSTANCE_CREATE" => Some(StageInstanceCreate)
    case "STAGE_INSTANCE_UPDATE" => Some(StageInstanceUpdate)
    case "STAGE_INSTANCE_DELETE" => Some(StageInstanceDelete)
    case "TYPING_START" => Some(TypingStart)
    case "USER_UPDATE" => Some(UserUpdate)
    case "VOICE_STATE_UPDATE" => Some(VoiceStateUpdate)
    case "VOICE_SERVER_UPDATE" => Some(VoiceServerUpdate)
    case "WEBHOOKS_UPDATE" => Some(WebhooksUpdate)
    case _ => None
  }

  /** The corrected `GatewayEventType::from_str`: upper-case, then look the key up in the
      corrected table. The repository's own function is `FromStrAsWritten`. */
  function FromStr(s: string): (r: Option<EventType>)
    ensures r.Some? ==> Upper(s) == Key(r.value)
  {
    var key := Upper(s);
    if Lookup(key).Some? then
      LookupSound(key, Lookup(key).value);
      Lookup(key)
    else None
  }

  // ----- the table as the repository spells it -----

  /** The key table as written in src/types.rs:310-376. It is the table above except that
      the four auto-moderation keys are spelt without the underscore between AUTO and
      MODERATION ("AUTOMODERATION_RULE_CREATE"), so the spellings Discord sends are unknown. */
  function LookupAsWritten(key: string): Option<EventType> {
    match key
    case "AUTOMODERATION_RULE_CREATE" => Some(AutoModerationRuleCreate)
    case "AUTOMODERATION_RULE_UPDATE" => Some(AutoModerationRuleUpdate)
    case "AUTOMODERATION_RULE_DELETE" => Some(AutoModerationRuleDelete)
    case "AUTOMODERATION_ACTION_EXECUTION" => Some(AutoModerationActionExecution)
    case "AUTO_MODERATION_RULE_CREATE" => None
    case "AUTO_MODERATION_RULE_UPDATE" => None
    case "AUTO_MODERATION_RULE_DELETE" => None
    case "AUTO_MODERATION_ACTION_EXECUTION" => None
    case _ => Lookup(key)
  }

  /** The four auto-moderation kinds, the ones whose keys the table as written spells
      differently. */
  predicate IsAutoModeration(k: EventType) {
    k.AutoModerationRuleCreate? || k.AutoModerationRuleUpdate?
    || k.AutoModerationRuleDelete? || k.AutoModerationActionExecution?
  }

  /** The key the table as written expects for each kind. */
  function KeyAsWritten(k: EventType): string {
    match k
    case AutoModerationRuleCreate => "AUTOMODERATION_RULE_CREATE"
    case AutoModerationRuleUpdate => "AUTOMODERATION_RULE_UPDATE"
    case AutoModerationRuleDelete => "AUTOMODERATION_RULE_DELETE"
    case AutoModerationActionExecution => "AUTOMODERATION_ACTION_EXECUTION"
    case _ => Key(k)
  }

  /** `from_str` as written. */
  function FromStrAsWritten(s: string): (r: Option<EventType>)
    ensures r.Some? ==> Upper(s) == KeyAsWritten(r.value)
  {
    var key := Upper(s);
    if LookupAsWritten(key).Some? then
      LookupAsWrittenSound(key, LookupAsWritten(key).value);
      LookupAsWritten(key)
    else None
  }

  // ----- properties of the table -----

  lemma UpperIdempotent(s: string)
    ensures Upper(Upper(s)) == Upper(s)
  {
  }

  lemma UpperKeeps(s: string)
    requires IsUpper(s)
    ensures Upper(s) == s
  {
  }

  // ----- one lemma per key -----
  //
  // The three families below hold no facts of their own. `KeyOf*` spells out `Key` for
  // one kind, and `LookupKey*` and `LookupSound*` state `LookupKey` and `LookupSound`
  // for one kind. The verifier settles one literal key at a time cheaply, but cannot
  // unfold the 64-way `match` of `Key` against the 64 literal cases of `Lookup` within
  // its resource limit. So the general lemmas dispatch on the kind and call these.

  /** The key of each kind, which is upper case already. */
  lemma KeyOfReady() ensures Key(Ready) == "READY" ensures IsUpper("READY") {}
  lemma KeyOfResumed() ensures Key(Resumed) == "RESUMED" ensures IsUpper("RESUMED") {}
  lemma KeyOfApplicationCommandPermissionsUpdate() ensures Key(ApplicationCommandPermissionsUpdate) == "APPLICATION_COMMAND_PERMISSIONS_UPDATE" ensures IsUpper("APPLICATION_COMMAND_PERMISSIONS_UPDATE") {}
  lemma KeyOfAutoModerationRuleCreate() ensures Key(AutoModerationRuleCreate) == "AUTO_MODERATION_RULE_CREATE" ensures IsUpper("AUTO_MODERATION_RULE_CREATE") {}
  lemma KeyOfAutoModerationRuleUpdate() ensures Key(AutoModerationRuleUpdate) == "AUTO_MODERATION_RULE_UPDATE" ensures IsUpper("AUTO_MODERATION_RULE_UPDATE") {}
  lemma KeyOfAutoModerationRuleDelete() ensures Key(AutoModerationRuleDelete) == "AUTO_MODERATION_RULE_DELETE" ensures IsUpper("AUTO_MODERATION_RULE_DELETE") {}
  lemma KeyOfAutoModerationActionExecution() ensures Key(AutoModerationActionExecution) == "AUTO_MODERATION_ACTION_EXECUTION" ensures IsUpper("AUTO_MODERATION_ACTION_EXECUTION") {}
  lemma KeyOfChannelCreate() ensures Key(ChannelCreate) == "CHANNEL_CREATE" ensures IsUpper("CHANNEL_CREATE") {}
  lemma KeyOfChannelUpdate() ensures Key(ChannelUpdate) == "CHANNEL_UPDATE" ensures IsUpper("CHANNEL_UPDATE") {}
  lemma KeyOfChannelDelete() ensures Key(ChannelDelete) == "CHANNEL_DELETE" ensures IsUpper("CHANNEL_DELETE") {}
  lemma KeyOfChannelPinsUpdate() ensures Key(ChannelPinsUpdate) == "CHANNEL_PINS_UPDATE" ensures IsUpper("CHANNEL_PINS_UPDATE") {}
  lemma KeyOfThreadCreate() ensures Key(ThreadCreate) == "THREAD_CREATE" ensures IsUpper("THREAD_CREATE") {}
  lemma KeyOfThreadUpdate() ensures Key(ThreadUpdate) == "THREAD_UPDATE" ensures IsUpper("THREAD_UPDATE") {}
  lemma KeyOfThreadDelete() ensures Key(ThreadDelete) == "THREAD_DELETE" ensures IsUpper("THREAD_DELETE") {}
  lemma KeyOfThreadListSync() ensures Key(ThreadListSync) == "THREAD_LIST_SYNC" ensures IsUpper("THREAD_LIST_SYNC") {}
  lemma KeyOfThreadMemberUpdate() ensures Key(ThreadMemberUpdate) == "THREAD_MEMBER_UPDATE" ensures IsUpper("THREAD_MEMBER_UPDATE") {}
  lemma KeyOfThreadMembersUpdate() ensures Key(ThreadMembersUpdate) == "THREAD_MEMBERS_UPDATE" ensures IsUpper("THREAD_MEMBERS_UPDATE") {}
  lemma KeyOfEntitlementCreate() ensures Key(EntitlementCreate) == "ENTITLEMENT_CREATE" ensures IsUpper("ENTITLEMENT_CREATE") {}
  lemma KeyOfEntitlementUpdate() ensures Key(EntitlementUpdate) == "ENTITLEMENT_UPDATE" ensures IsUpper("ENTITLEMENT_UPDATE") {}
  lemma KeyOfEntitlementDelete() ensures Key(EntitlementDelete) == "ENTITLEMENT_DELETE" ensures IsUpper("ENTITLEMENT_DELETE") {}
  lemma KeyOfGuildCreate() ensures Key(GuildCreate) == "GUILD_CREATE" ensures IsUpper("GUILD_CREATE") {}
  lemma KeyOfGuildUpdate() ensures Key(GuildUpdate) == "GUILD_UPDATE" ensures IsUpper("GUILD_UPDATE") {}
  lemma KeyOfGuildDelete() ensures Key(GuildDelete) == "GUILD_DELETE" ensures IsUpper("GUILD_DELETE") {}
  lemma KeyOfGuildAuditLogEntryCreate() ensures Key(GuildAuditLogEntryCreate) == "GUILD_AUDIT_LOG_ENTRY_CREATE" ensures IsUpper("GUILD_AUDIT_LOG_ENTRY_CREATE") {}
  lemma KeyOfGuildBanAdd() ensures Key(GuildBanAdd) == "GUILD_BAN_ADD" ensures IsUpper("GUILD_BAN_ADD") {}
  lemma KeyOfGuildBanRemove() ensures Key(GuildBanRemove) == "GUILD_BAN_REMOVE" ensures IsUpper("GUILD_BAN_REMOVE") {}
  lemma KeyOfGuildEmojisUpdate() ensures Key(GuildEmojisUpdate) == "GUILD_EMOJIS_UPDATE" ensures IsUpper("GUILD_EMOJIS_UPDATE") {}
  lemma KeyOfGuildStickersUpdate() ensures Key(GuildStickersUpdate) == "GUILD_STICKERS_UPDATE" ensures IsUpper("GUILD_STICKERS_UPDATE") {}
  lemma KeyOfGuildIntegrationsUpdate() ensures Key(GuildIntegrationsUpdate) == "GUILD_INTEGRATIONS_UPDATE" ensures IsUpper("GUILD_INTEGRATIONS_UPDATE") {}
  lemma KeyOfGuildMemberAdd() ensures Key(GuildMemberAdd) == "GUILD_MEMBER_ADD" ensures IsUpper("GUILD_MEMBER_ADD") {}
  lemma KeyOfGuildMemberRemove() ensures Key(GuildMemberRemove) == "GUILD_MEMBER_REMOVE" ensures IsUpper("GUILD_MEMBER_REMOVE") {}
  lemma KeyOfGuildMemberUpdate() ensures Key(GuildMemberUpdate) == "GUILD_MEMBER_UPDATE" ensures IsUpper("GUILD_MEMBER_UPDATE") {}
  lemma KeyOfGuildMembersChunk() ensures Key(GuildMembersChunk) == "GUILD_MEMBERS_CHUNK" ensures IsUpper("GUILD_MEMBERS_CHUNK") {}
  lemma KeyOfGuildRoleCreate() ensures Key(GuildRoleCreate) == "GUILD_ROLE_CREATE" ensures IsUpper("GUILD_ROLE_CREATE") {}
  lemma KeyOfGuildRoleUpdate() ensures Key(GuildRoleUpdate) == "GUILD_ROLE_UPDATE" ensures IsUpper("GUILD_ROLE_UPDATE") {}
  lemma KeyOfGuildRoleDelete() ensures Key(GuildRoleDelete) == "GUILD_ROLE_DELETE" ensures IsUpper("GUILD_ROLE_DELETE") {}
  lemma KeyOfGuildScheduledEventCreate() ensures Key(GuildScheduledEventCreate) == "GUILD_SCHEDULED_EVENT_CREATE" ensures IsUpper("GUILD_SCHEDULED_EVENT_CREATE") {}
  lemma KeyOfGuildScheduledEventUpdate() ensures Key(GuildScheduledEventUpdate) == "GUILD_SCHEDULED_EVENT_UPDATE" ensures IsUpper("GUILD_SCHEDULED_EVENT_UPDATE") {}
  lemma KeyOfGuildScheduledEventDelete() ensures Key(GuildScheduledEventDelete) == "GUILD_SCHEDULED_EVENT_DELETE" ensures IsUpper("GUILD_SCHEDULED_EVENT_DELETE") {}
  lemma KeyOfGuildScheduledEventUserAdd() ensures Key(GuildScheduledEventUserAdd) == "GUILD_SCHEDULED_EVENT_USER_ADD" ensures IsUpper("GUILD_SCHEDULED_EVENT_USER_ADD") {}
  lemma KeyOfGuildScheduledEventUserRemove() ensures Key(GuildScheduledEventUserRemove) == "GUILD_SCHEDULED_EVENT_USER_REMOVE" ensures IsUpper("GUILD_SCHEDULED_EVENT_USER_REMOVE") {}
  lemma KeyOfIntegrationCreate() ensures Key(IntegrationCreate) == "INTEGRATION_CREATE" ensures IsUpper("INTEGRATION_CREATE") {}
  lemma KeyOfIntegrationUpdate() ensures Key(IntegrationUpdate) == "INTEGRATION_UPDATE" ensures IsUpper("INTEGRATION_UPDATE") {}
  lemma KeyOfIntegrationDelete() ensures Key(IntegrationDelete) == "INTEGRATION_DELETE" ensures IsUpper("INTEGRATION_DELETE") {}
  lemma KeyOfInteractionCreate() ensures Key(InteractionCreate) == "INTERACTION_CREATE" ensures IsUpper("INTERACTION_CREATE") {}
  lemma KeyOfInviteCreate() ensures Key(InviteCreate) == "INVITE_CREATE" ensures IsUpper("INVITE_CREATE") {}
  lemma KeyOfInviteDelete() ensures Key(InviteDelete) == "INVITE_DELETE" ensures IsUpper("INVITE_DELETE") {}
  lemma KeyOfMessageCreate() ensures Key(MessageCreate) == "MESSAGE_CREATE" ensures IsUpper("MESSAGE_CREATE") {}
  lemma KeyOfMessageUpdate() ensures Key(MessageUpdate) == "MESSAGE_UPDATE" ensures IsUpper("MESSAGE_UPDATE") {}
  lemma KeyOfMessageDelete() ensures Key(MessageDelete) == "MESSAGE_DELETE" ensures IsUpper("MESSAGE_DELETE") {}
  lemma KeyOfMessageDeleteBulk() ensures Key(MessageDeleteBulk) == "MESSAGE_DELETE_BULK" ensures IsUpper("MESSAGE_DELETE_BULK") {}
  lemma KeyOfMessageReactionAdd() ensures Key(MessageReactionAdd) == "MESSAGE_REACTION_ADD" ensures IsUpper("MESSAGE_REACTION_ADD") {}
  lemma KeyOfMessageReactionRemove() ensures Key(MessageReactionRemove) == "MESSAGE_REACTION_REMOVE" ensures IsUpper("MESSAGE_REACTION_REMOVE") {}
  lemma KeyOfMessageReactionRemoveAll() ensures Key(MessageReactionRemoveAll) == "MESSAGE_REACTION_REMOVE_ALL" ensures IsUpper("MESSAGE_REACTION_REMOVE_ALL") {}
  lemma KeyOfMessageReactionRemoveEmoji() ensures Key(MessageReactionRemoveEmoji) == "MESSAGE_REACTION_REMOVE_EMOJI" ensures IsUpper("MESSAGE_REACTION_REMOVE_EMOJI") {}
  lemma KeyOfPresenceUpdate() ensures Key(PresenceUpdate) == "PRESENCE_UPDATE" ensures IsUpper("PRESENCE_UPDATE") {}
  lemma KeyOfStageInstanceCreate() ensures Key(StageInstanceCreate) == "STAGE_INSTANCE_CREATE" ensures IsUpper("STAGE_INSTANCE_CREATE") {}
  lemma KeyOfStageInstanceUpdate() ensures Key(StageInstanceUpdate) == "STAGE_INSTANCE_UPDATE" ensures IsUpper("STAGE_INSTANCE_UPDATE") {}
  lemma KeyOfStageInstanceDelete() ensures Key(StageInstanceDelete) == "STAGE_INSTANCE_DELETE" ensures IsUpper("STAGE_INSTANCE_DELETE") {}
  lemma KeyOfTypingStart() ensures Key(TypingStart) == "TYPING_START" ensures IsUpper("TYPING_START") {}
  lemma KeyOfUserUpdate() ensures Key(UserUpdate) == "USER_UPDATE" ensures IsUpper("USER_UPDATE") {}
  lemma KeyOfVoiceStateUpdate() ensures Key(VoiceStateUpdate) == "VOICE_STATE_UPDATE" ensures IsUpper("VOICE_STATE_UPDATE") {}
  lemma KeyOfVoiceServerUpdate() ensures Key(VoiceServerUpdate) == "VOICE_SERVER_UPDATE" ensures IsUpper("VOICE_SERVER_UPDATE") {}
  lemma KeyOfWebhooksUpdate() ensures Key(WebhooksUpdate) == "WEBHOOKS_UPDATE" ensures IsUpper("WEBHOOKS_UPDATE") {}

  /** Each key, looked up, gives its own kind. */
  lemma LookupKeyReady() ensures Lookup(Key(Ready)) == Some(Ready) ensures IsUpper(Key(Ready)) { KeyOfReady(); }
  lemma LookupKeyResumed() ensures Lookup(Key(Resumed)) == Some(Resumed) ensures IsUpper(Key(Resumed)) { KeyOfResumed(); }
  lemma LookupKeyApplicationCommandPermissionsUpdate() ensures Lookup(Key(ApplicationCommandPermissionsUpdate)) == Some(ApplicationCommandPermissionsUpdate) ensures IsUpper(Key(ApplicationCommandPermissionsUpdate)) { KeyOfApplicationCommandPermissionsUpdate(); }
  lemma LookupKeyAutoModerationRuleCreate() ensures Lookup(Key(AutoModerationRuleCreate)) == Some(AutoModerationRuleCreate) ensures IsUpper(Key(AutoModerationRuleCreate)) { KeyOfAutoModerationRuleCreate(); }
  lemma LookupKeyAutoModerationRuleUpdate() ensures Lookup(Key(AutoModerationRuleUpdate)) == Some(AutoModerationRuleUpdate) ensures IsUpper(Key(AutoModerationRuleUpdate)) { KeyOfAutoModerationRuleUpdate(); }
  lemma LookupKeyAutoModerationRuleDelete() ensures Lookup(Key(AutoModerationRuleDelete)) == Some(AutoModerationRuleDelete) ensures IsUpper(Key(AutoModerationRuleDelete)) { KeyOfAutoModerationRuleDelete(); }
  lemma LookupKeyAutoModerationActionExecution() ensures Lookup(Key(AutoModerationActionExecution)) == Some(AutoModerationActionExecution) ensures IsUpper(Key(AutoModerationActionExecution)) { KeyOfAutoModerationActionExecution(); }
  lemma LookupKeyChannelCreate() ensures Lookup(Key(ChannelCreate)) == Some(ChannelCreate) ensures IsUpper(Key(ChannelCreate)) { KeyOfChannelCreate(); }
  lemma LookupKeyChannelUpdate() ensures Lookup(Key(ChannelUpdate)) == Some(ChannelUpdate) ensures IsUpper(Key(ChannelUpdate)) { KeyOfChannelUpdate(); }
  lemma LookupKeyChannelDelete() ensures Lookup(Key(ChannelDelete)) == Some(ChannelDelete) ensures IsUpper(Key(ChannelDelete)) { KeyOfChannelDelete(); }
  lemma LookupKeyChannelPinsUpdate() ensures Lookup(Key(ChannelPinsUpdate)) == Some(ChannelPinsUpdate) ensures IsUpper(Key(ChannelPinsUpdate)) { KeyOfChannelPinsUpdate(); }
  lemma LookupKeyThreadCreate() ensures Lookup(Key(ThreadCreate)) == Some(ThreadCreate) ensures IsUpper(Key(ThreadCreate)) { KeyOfThreadCreate(); }
  lemma LookupKeyThreadUpdate() ensures Lookup(Key(ThreadUpdate)) == Some(ThreadUpdate) ensures IsUpper(Key(ThreadUpdate)) { KeyOfThreadUpdate(); }
  lemma LookupKeyThreadDelete() ensures Lookup(Key(ThreadDelete)) == Some(ThreadDelete) ensures IsUpper(Key(ThreadDelete)) { KeyOfThreadDelete(); }
  lemma LookupKeyThreadListSync() ensures Lookup(Key(ThreadListSync)) == Some(ThreadListSync) ensures IsUpper(Key(ThreadListSync)) { KeyOfThreadListSync(); }
  lemma LookupKeyThreadMemberUpdate() ensures Lookup(Key(ThreadMemberUpdate)) == Some(ThreadMemberUpdate) ensures IsUpper(Key(ThreadMemberUpdate)) { KeyOfThreadMemberUpdate(); }
  lemma LookupKeyThreadMembersUpdate() ensures Lookup(Key(ThreadMembersUpdate)) == Some(ThreadMembersUpdate) ensures IsUpper(Key(ThreadMembersUpdate)) { KeyOfThreadMembersUpdate(); }
  lemma LookupKeyEntitlementCreate() ensures Lookup(Key(EntitlementCreate)) == Some(EntitlementCreate) ensures IsUpper(Key(EntitlementCreate)) { KeyOfEntitlementCreate(); }
  lemma LookupKeyEntitlementUpdate() ensures Lookup(Key(EntitlementUpdate)) == Some(EntitlementUpdate) ensures IsUpper(Key(EntitlementUpdate)) { KeyOfEntitlementUpdate(); }
  lemma LookupKeyEntitlementDelete() ensures Lookup(Key(EntitlementDelete)) == Some(EntitlementDelete) ensures IsUpper(Key(EntitlementDelete)) { KeyOfEntitlementDelete(); }
  lemma LookupKeyGuildCreate() ensures Lookup(Key(GuildCreate)) == Some(GuildCreate) ensures IsUpper(Key(GuildCreate)) { KeyOfGuildCreate(); }
  lemma LookupKeyGuildUpdate() ensures Lookup(Key(GuildUpdate)) == Some(GuildUpdate) ensures IsUpper(Key(GuildUpdate)) { KeyOfGuildUpdate(); }
  lemma LookupKeyGuildDelete() ensures Lookup(Key(GuildDelete)) == Some(GuildDelete) ensures IsUpper(Key(GuildDelete)) { KeyOfGuildDelete(); }
  lemma LookupKeyGuildAuditLogEntryCreate() ensures Lookup(Key(GuildAuditLogEntryCreate)) == Some(GuildAuditLogEntryCreate) ensures IsUpper(Key(GuildAuditLogEntryCreate)) { KeyOfGuildAuditLogEntryCreate(); }
  lemma LookupKeyGuildBanAdd() ensures Lookup(Key(GuildBanAdd)) == Some(GuildBanAdd) ensures IsUpper(Key(GuildBanAdd)) { KeyOfGuildBanAdd(); }
  lemma LookupKeyGuildBanRemove() ensures Lookup(Key(GuildBanRemove)) == Some(GuildBanRemove) ensures IsUpper(Key(GuildBanRemove)) { KeyOfGuildBanRemove(); }
  lemma LookupKeyGuildEmojisUpdate() ensures Lookup(Key(GuildEmojisUpdate)) == Some(GuildEmojisUpdate) ensures IsUpper(Key(GuildEmojisUpdate)) { KeyOfGuildEmojisUpdate(); }
  lemma LookupKeyGuildStickersUpdate() ensures Lookup(Key(GuildStickersUpdate)) == Some(GuildStickersUpdate) ensures IsUpper(Key(GuildStickersUpdate)) { KeyOfGuildStickersUpdate(); }
  lemma LookupKeyGuildIntegrationsUpdate() ensures Lookup(Key(GuildIntegrationsUpdate)) == Some(GuildIntegrationsUpdate) ensures IsUpper(Key(GuildIntegrationsUpdate)) { KeyOfGuildIntegrationsUpdate(); }
  lemma LookupKeyGuildMemberAdd() ensures Lookup(Key(GuildMemberAdd)) == Some(GuildMemberAdd) ensures IsUpper(Key(GuildMemberAdd)) { KeyOfGuildMemberAdd(); }
  lemma LookupKeyGuildMemberRemove() ensures Lookup(Key(GuildMemberRemove)) == Some(GuildMemberRemove) ensures IsUpper(Key(GuildMemberRemove)) { KeyOfGuildMemberRemove(); }
  lemma LookupKeyGuildMemberUpdate() ensures Lookup(Key(GuildMemberUpdate)) == Some(GuildMemberUpdate) ensures IsUpper(Key(GuildMemberUpdate)) { KeyOfGuildMemberUpdate(); }
  lemma LookupKeyGuildMembersChunk() ensures Lookup(Key(GuildMembersChunk)) == Some(GuildMembersChunk) ensures IsUpper(Key(GuildMembersChunk)) { KeyOfGuildMembersChunk(); }
  lemma LookupKeyGuildRoleCreate() ensures Lookup(Key(GuildRoleCreate)) == Some(GuildRoleCreate) ensures IsUpper(Key(GuildRoleCreate)) { KeyOfGuildRoleCreate(); }
  lemma LookupKeyGuildRoleUpdate() ensures Lookup(Key(GuildRoleUpdate)) == Some(GuildRoleUpdate) ensures IsUpper(Key(GuildRoleUpdate)) { KeyOfGuildRoleUpdate(); }
  lemma LookupKeyGuildRoleDelete() ensures Lookup(Key(GuildRoleDelete)) == Some(GuildRoleDelete) ensures IsUpper(Key(GuildRoleDelete)) { KeyOfGuildRoleDelete(); }
  lemma LookupKeyGuildScheduledEventCreate() ensures Lookup(Key(GuildScheduledEventCreate)) == Some(GuildScheduledEventCreate) ensures IsUpper(Key(GuildScheduledEventCreate)) { KeyOfGuildScheduledEventCreate(); }
  lemma LookupKeyGuildScheduledEventUpdate() ensures Lookup(Key(GuildScheduledEventUpdate)) == Some(GuildScheduledEventUpdate) ensures IsUpper(Key(GuildScheduledEventUpdate)) { KeyOfGuildScheduledEventUpdate(); }
  lemma LookupKeyGuildScheduledEventDelete() ensures Lookup(Key(GuildScheduledEventDelete)) == Some(GuildScheduledEventDelete) ensures IsUpper(Key(GuildScheduledEventDelete)) { KeyOfGuildScheduledEventDelete(); }
  lemma LookupKeyGuildScheduledEventUserAdd() ensures Lookup(Key(GuildScheduledEventUserAdd)) == Some(GuildScheduledEventUserAdd) ensures IsUpper(Key(GuildScheduledEventUserAdd)) { KeyOfGuildScheduledEventUserAdd(); }
  lemma LookupKeyGuildScheduledEventUserRemove() ensures Lookup(Key(GuildScheduledEventUserRemove)) == Some(GuildScheduledEventUserRemove) ensures IsUpper(Key(GuildScheduledEventUserRemove)) { KeyOfGuildScheduledEventUserRemove(); }
  lemma LookupKeyIntegrationCreate() ensures Lookup(Key(IntegrationCreate)) == Some(IntegrationCreate) ensures IsUpper(Key(IntegrationCreate)) { KeyOfIntegrationCreate(); }
  lemma LookupKeyIntegrationUpdate() ensures Lookup(Key(IntegrationUpdate)) == Some(IntegrationUpdate) ensures IsUpper(Key(IntegrationUpdate)) { KeyOfIntegrationUpdate(); }
  lemma LookupKeyIntegrationDelete() ensures Lookup(Key(IntegrationDelete)) == Some(IntegrationDelete) ensures IsUpper(Key(IntegrationDelete)) { KeyOfIntegrationDelete(); }
  lemma LookupKeyInteractionCreate() ensures Lookup(Key(InteractionCreate)) == Some(InteractionCreate) ensures IsUpper(Key(InteractionCreate)) { KeyOfInteractionCreate(); }
  lemma LookupKeyInviteCreate() ensures Lookup(Key(InviteCreate)) == Some(InviteCreate) ensures IsUpper(Key(InviteCreate)) { KeyOfInviteCreate(); }
  lemma LookupKeyInviteDelete() ensures Lookup(Key(InviteDelete)) == Some(InviteDelete) ensures IsUpper(Key(InviteDelete)) { KeyOfInviteDelete(); }
  lemma LookupKeyMessageCreate() ensures Lookup(Key(MessageCreate)) == Some(MessageCreate) ensures IsUpper(Key(MessageCreate)) { KeyOfMessageCreate(); }
  lemma LookupKeyMessageUpdate() ensures Lookup(Key(MessageUpdate)) == Some(MessageUpdate) ensures IsUpper(Key(MessageUpdate)) { KeyOfMessageUpdate(); }
  lemma LookupKeyMessageDelete() ensures Lookup(Key(MessageDelete)) == Some(MessageDelete) ensures IsUpper(Key(MessageDelete)) { KeyOfMessageDelete(); }
  lemma LookupKeyMessageDeleteBulk() ensures Lookup(Key(MessageDeleteBulk)) == Some(MessageDeleteBulk) ensures IsUpper(Key(MessageDeleteBulk)) { KeyOfMessageDeleteBulk(); }
  lemma LookupKeyMessageReactionAdd() ensures Lookup(Key(MessageReactionAdd)) == Some(MessageReactionAdd) ensures IsUpper(Key(MessageReactionAdd)) { KeyOfMessageReactionAdd(); }
  lemma LookupKeyMessageReactionRemove() ensures Lookup(Key(MessageReactionRemove)) == Some(MessageReactionRemove) ensures IsUpper(Key(MessageReactionRemove)) { KeyOfMessageReactionRemove(); }
  lemma LookupKeyMessageReactionRemoveAll() ensures Lookup(Key(MessageReactionRemoveAll)) == Some(MessageReactionRemoveAll) ensures IsUpper(Key(MessageReactionRemoveAll)) { KeyOfMessageReactionRemoveAll(); }
  lemma LookupKeyMessageReactionRemoveEmoji() ensures Lookup(Key(MessageReactionRemoveEmoji)) == Some(MessageReactionRemoveEmoji) ensures IsUpper(Key(MessageReactionRemoveEmoji)) { KeyOfMessageReactionRemoveEmoji(); }
  lemma LookupKeyPresenceUpdate() ensures Lookup(Key(PresenceUpdate)) == Some(PresenceUpdate) ensures IsUpper(Key(PresenceUpdate)) { KeyOfPresenceUpdate(); }
  lemma LookupKeyStageInstanceCreate() ensures Lookup(Key(StageInstanceCreate)) == Some(StageInstanceCreate) ensures IsUpper(Key(StageInstanceCreate)) { KeyOfStageInstanceCreate(); }
  lemma LookupKeyStageInstanceUpdate() ensures Lookup(Key(StageInstanceUpdate)) == Some(StageInstanceUpdate) ensures IsUpper(Key(StageInstanceUpdate)) { KeyOfStageInstanceUpdate(); }
  lemma LookupKeyStageInstanceDelete() ensures Lookup(Key(StageInstanceDelete)) == Some(StageInstanceDelete) ensures IsUpper(Key(StageInstanceDelete)) { KeyOfStageInstanceDelete(); }
  lemma LookupKeyTypingStart() ensures Lookup(Key(TypingStart)) == Some(TypingStart) ensures IsUpper(Key(TypingStart)) { KeyOfTypingStart(); }
  lemma LookupKeyUserUpdate() ensures Lookup(Key(UserUpdate)) == Some(UserUpdate) ensures IsUpper(Key(UserUpdate)) { KeyOfUserUpdate(); }
  lemma LookupKeyVoiceStateUpdate() ensures Lookup(Key(VoiceStateUpdate)) == Some(VoiceStateUpdate) ensures IsUpper(Key(VoiceStateUpdate)) { KeyOfVoiceStateUpdate(); }
  lemma LookupKeyVoiceServerUpdate() ensures Lookup(Key(VoiceServerUpdate)) == Some(VoiceServerUpdate) ensures IsUpper(Key(VoiceServerUpdate)) { KeyOfVoiceServerUpdate(); }
  lemma LookupKeyWebhooksUpdate() ensures Lookup(Key(WebhooksUpdate)) == Some(WebhooksUpdate) ensures IsUpper(Key(WebhooksUpdate)) { KeyOfWebhooksUpdate(); }

  /** Only its own key gives a kind. */
  lemma LookupSoundReady(key: string) requires Lookup(key) == Some(Ready) ensures key == Key(Ready) { KeyOfReady(); }
  lemma LookupSoundResumed(key: string) requires Lookup(key) == Some(Resumed) ensures key == Key(Resumed) { KeyOfResumed(); }
  lemma LookupSoundApplicationCommandPermissionsUpdate(key: string) requires Lookup(key) == Some(ApplicationCommandPermissionsUpdate) ensures key == Key(ApplicationCommandPermissionsUpdate) { KeyOfApplicationCommandPermissionsUpdate(); }
  lemma LookupSoundAutoModerationRuleCreate(key: string) requires Lookup(key) == Some(AutoModerationRuleCreate) ensures key == Key(AutoModerationRuleCreate) { KeyOfAutoModerationRuleCreate(); }
  lemma LookupSoundAutoModerationRuleUpdate(key: string) requires Lookup(key) == Some(AutoModerationRuleUpdate) ensures key == Key(AutoModerationRuleUpdate) { KeyOfAutoModerationRuleUpdate(); }
  lemma LookupSoundAutoModerationRuleDelete(key: string) requires Lookup(key) == Some(AutoModerationRuleDelete) ensures key == Key(AutoModerationRuleDelete) { KeyOfAutoModerationRuleDelete(); }
  lemma LookupSoundAutoModerationActionExecution(key: string) requires Lookup(key) == Some(AutoModerationActionExecution) ensures key == Key(AutoModerationActionExecution) { KeyOfAutoModerationActionExecution(); }
  lemma LookupSoundChannelCreate(key: string) requires Lookup(key) == Some(ChannelCreate) ensures key == Key(ChannelCreate) { KeyOfChannelCreate(); }
  lemma LookupSoundChannelUpdate(key: string) requires Lookup(key) == Some(ChannelUpdate) ensures key == Key(ChannelUpdate) { KeyOfChannelUpdate(); }
  lemma LookupSoundChannelDelete(key: string) requires Lookup(key) == Some(ChannelDelete) ensures key == Key(ChannelDelete) { KeyOfChannelDelete(); }
  lemma LookupSoundChannelPinsUpdate(key: string) requires Lookup(key) == Some(ChannelPinsUpdate) ensures key == Key(ChannelPinsUpdate) { KeyOfChannelPinsUpdate(); }
  lemma LookupSoundThreadCreate(key: string) requires Lookup(key) == Some(ThreadCreate) ensures key == Key(ThreadCreate) { KeyOfThreadCreate(); }
  lemma LookupSoundThreadUpdate(key: string) requires Lookup(key) == Some(ThreadUpdate) ensures key == Key(ThreadUpdate) { KeyOfThreadUpdate(); }
  lemma LookupSoundThreadDelete(key: string) requires Lookup(key) == Some(ThreadDelete) ensures key == Key(ThreadDelete) { KeyOfThreadDelete(); }
  lemma LookupSoundThreadListSync(key: string) requires Lookup(key) == Some(ThreadListSync) ensures key == Key(ThreadListSync) { KeyOfThreadListSync(); }
  lemma LookupSoundThreadMemberUpdate(key: string) requires Lookup(key) == Some(ThreadMemberUpdate) ensures key == Key(ThreadMemberUpdate) { KeyOfThreadMemberUpdate(); }
  lemma LookupSoundThreadMembersUpdate(key: string) requires Lookup(key) == Some(ThreadMembersUpdate) ensures key == Key(ThreadMembersUpdate) { KeyOfThreadMembersUpdate(); }
  lemma LookupSoundEntitlementCreate(key: string) requires Lookup(key) == Some(EntitlementCreate) ensures key == Key(EntitlementCreate) { KeyOfEntitlementCreate(); }
  lemma LookupSoundEntitlementUpdate(key: string) requires Lookup(key) == Some(EntitlementUpdate) ensures key == Key(EntitlementUpdate) { KeyOfEntitlementUpdate(); }
  lemma LookupSoundEntitlementDelete(key: string) requires Lookup(key) == Some(EntitlementDelete) ensures key == Key(EntitlementDelete) { KeyOfEntitlementDelete(); }
  lemma LookupSoundGuildCreate(key: string) requires Lookup(key) == Some(GuildCreate) ensures key == Key(GuildCreate) { KeyOfGuildCreate(); }
  lemma LookupSoundGuildUpdate(key: string) requires Lookup(key) == Some(GuildUpdate) ensures key == Key(GuildUpdate) { KeyOfGuildUpdate(); }
  lemma LookupSoundGuildDelete(key: string) requires Lookup(key) == Some(GuildDelete) ensures key == Key(GuildDelete) { KeyOfGuildDelete(); }
  lemma LookupSoundGuildAuditLogEntryCreate(key: string) requires Lookup(key) == Some(GuildAuditLogEntryCreate) ensures key == Key(GuildAuditLogEntryCreate) { KeyOfGuildAuditLogEntryCreate(); }
  lemma LookupSoundGuildBanAdd(key: string) requires Lookup(key) == Some(GuildBanAdd) ensures key == Key(GuildBanAdd) { KeyOfGuildBanAdd(); }
  lemma LookupSoundGuildBanRemove(key: string) requires Lookup(key) == Some(GuildBanRemove) ensures key == Key(GuildBanRemove) { KeyOfGuildBanRemove(); }
  lemma LookupSoundGuildEmojisUpdate(key: string) requires Lookup(key) == Some(GuildEmojisUpdate) ensures key == Key(GuildEmojisUpdate) { KeyOfGuildEmojisUpdate(); }
  lemma LookupSoundGuildStickersUpdate(key: string) requires Lookup(key) == Some(GuildStickersUpdate) ensures key == Key(GuildStickersUpdate) { KeyOfGuildStickersUpdate(); }
  lemma LookupSoundGuildIntegrationsUpdate(key: string) requires Lookup(key) == Some(GuildIntegrationsUpdate) ensures key == Key(GuildIntegrationsUpdate) { KeyOfGuildIntegrationsUpdate(); }
  lemma LookupSoundGuildMemberAdd(key: string) requires Lookup(key) == Some(GuildMemberAdd) ensures key == Key(GuildMemberAdd) { KeyOfGuildMemberAdd(); }
  lemma LookupSoundGuildMemberRemove(key: string) requires Lookup(key) == Some(GuildMemberRemove) ensures key == Key(GuildMemberRemove) { KeyOfGuildMemberRemove(); }
  lemma LookupSoundGuildMemberUpdate(key: string) requires Lookup(key) == Some(GuildMemberUpdate) ensures key == Key(GuildMemberUpdate) { KeyOfGuildMemberUpdate(); }
  lemma LookupSoundGuildMembersChunk(key: string) requires Lookup(key) == Some(GuildMembersChunk) ensures key == Key(GuildMembersChunk) { KeyOfGuildMembersChunk(); }
  lemma LookupSoundGuildRoleCreate(key: string) requires Lookup(key) == Some(GuildRoleCreate) ensures key == Key(GuildRoleCreate) { KeyOfGuildRoleCreate(); }
  lemma LookupSoundGuildRoleUpdate(key: string) requires Lookup(key) == Some(GuildRoleUpdate) ensures key == Key(GuildRoleUpdate) { KeyOfGuildRoleUpdate(); }
  lemma LookupSoundGuildRoleDelete(key: string) requires Lookup(key) == Some(GuildRoleDelete) ensures key == Key(GuildRoleDelete) { KeyOfGuildRoleDelete(); }
  lemma LookupSoundGuildScheduledEventCreate(key: string) requires Lookup(key) == Some(GuildScheduledEventCreate) ensures key == Key(GuildScheduledEventCreate) { KeyOfGuildScheduledEventCreate(); }
  lemma LookupSoundGuildScheduledEventUpdate(key: string) requires Lookup(key) == Some(GuildScheduledEventUpdate) ensures key == Key(GuildScheduledEventUpdate) { KeyOfGuildScheduledEventUpdate(); }
  lemma LookupSoundGuildScheduledEventDelete(key: string) requires Lookup(key) == Some(GuildScheduledEventDelete) ensures key == Key(GuildScheduledEventDelete) { KeyOfGuildScheduledEventDelete(); }
  lemma LookupSoundGuildScheduledEventUserAdd(key: string) requires Lookup(key) == Some(GuildScheduledEventUserAdd) ensures key == Key(GuildScheduledEventUserAdd) { KeyOfGuildScheduledEventUserAdd(); }
  lemma LookupSoundGuildScheduledEventUserRemove(key: string) requires Lookup(key) == Some(GuildScheduledEventUserRemove) ensures key == Key(GuildScheduledEventUserRemove) { KeyOfGuildScheduledEventUserRemove(); }
  lemma LookupSoundIntegrationCreate(key: string) requires Lookup(key) == Some(IntegrationCreate) ensures key == Key(IntegrationCreate) { KeyOfIntegrationCreate(); }
  lemma LookupSoundIntegrationUpdate(key: string) requires Lookup(key) == Some(IntegrationUpdate) ensures key == Key(IntegrationUpdate) { KeyOfIntegrationUpdate(); }
  lemma LookupSoundIntegrationDelete(key: string) requires Lookup(key) == Some(IntegrationDelete) ensures key == Key(IntegrationDelete) { KeyOfIntegrationDelete(); }
  lemma LookupSoundInteractionCreate(key: string) requires Lookup(key) == Some(InteractionCreate) ensures key == Key(InteractionCreate) { KeyOfInteractionCreate(); }
  lemma LookupSoundInviteCreate(key: string) requires Lookup(key) == Some(InviteCreate) ensures key == Key(InviteCreate) { KeyOfInviteCreate(); }
  lemma LookupSoundInviteDelete(key: string) requires Lookup(key) == Some(InviteDelete) ensures key == Key(InviteDelete) { KeyOfInviteDelete(); }
  lemma LookupSoundMessageCreate(key: string) requires Lookup(key) == Some(MessageCreate) ensures key == Key(MessageCreate) { KeyOfMessageCreate(); }
  lemma LookupSoundMessageUpdate(key: string) requires Lookup(key) == Some(MessageUpdate) ensures key == Key(MessageUpdate) { KeyOfMessageUpdate(); }
  lemma LookupSoundMessageDelete(key: string) requires Lookup(key) == Some(MessageDelete) ensures key == Key(MessageDelete) { KeyOfMessageDelete(); }
  lemma LookupSoundMessageDeleteBulk(key: string) requires Lookup(key) == Some(MessageDeleteBulk) ensures key == Key(MessageDeleteBulk) { KeyOfMessageDeleteBulk(); }
  lemma LookupSoundMessageReactionAdd(key: string) requires Lookup(key) == Some(MessageReactionAdd) ensures key == Key(MessageReactionAdd) { KeyOfMessageReactionAdd(); }
  lemma LookupSoundMessageReactionRemove(key: string) requires Lookup(key) == Some(MessageReactionRemove) ensures key == Key(MessageReactionRemove) { KeyOfMessageReactionRemove(); }
  lemma LookupSoundMessageReactionRemoveAll(key: string) requires Lookup(key) == Some(MessageReactionRemoveAll) ensures key == Key(MessageReactionRemoveAll) { KeyOfMessageReactionRemoveAll(); }
  lemma LookupSoundMessageReactionRemoveEmoji(key: string) requires Lookup(key) == Some(MessageReactionRemoveEmoji) ensures key == Key(MessageReactionRemoveEmoji) { KeyOfMessageReactionRemoveEmoji(); }
  lemma LookupSoundPresenceUpdate(key: string) requires Lookup(key) == Some(PresenceUpdate) ensures key == Key(PresenceUpdate) { KeyOfPresenceUpdate(); }
  lemma LookupSoundStageInstanceCreate(key: string) requires Lookup(key) == Some(StageInstanceCreate) ensures key == Key(StageInstanceCreate) { KeyOfStageInstanceCreate(); }
  lemma LookupSoundStageInstanceUpdate(key: string) requires Lookup(key) == Some(StageInstanceUpdate) ensures key == Key(StageInstanceUpdate) { KeyOfStageInstanceUpdate(); }
  lemma LookupSoundStageInstanceDelete(key: string) requires Lookup(key) == Some(StageInstanceDelete) ensures key == Key(StageInstanceDelete) { KeyOfStageInstanceDelete(); }
  lemma LookupSoundTypingStart(key: string) requires Lookup(key) == Some(TypingStart) ensures key == Key(TypingStart) { KeyOfTypingStart(); }
  lemma LookupSoundUserUpdate(key: string) requires Lookup(key) == Some(UserUpdate) ensures key == Key(UserUpdate) { KeyOfUserUpdate(); }
  lemma LookupSoundVoiceStateUpdate(key: string) requires Lookup(key) == Some(VoiceStateUpdate) ensures key == Key(VoiceStateUpdate) { KeyOfVoiceStateUpdate(); }
  lemma LookupSoundVoiceServerUpdate(key: string) requires Lookup(key) == Some(VoiceServerUpdate) ensures key == Key(VoiceServerUpdate) { KeyOfVoiceServerUpdate(); }
  lemma LookupSoundWebhooksUpdate(key: string) requires Lookup(key) == Some(WebhooksUpdate) ensures key == Key(WebhooksUpdate) { KeyOfWebhooksUpdate(); }

  /** Every kind's Discord tag is in the corrected table, upper case, and gives that kind back. */
  lemma LookupKey(k: EventType)
    ensures Lookup(Key(k)) == Some(k)
    ensures IsUpper(Key(k))
  {
    match k
    case Ready => LookupKeyReady();
    case Resumed => LookupKeyResumed();
    case ApplicationCommandPermissionsUpdate => LookupKeyApplicationCommandPermissionsUpdate();
    case AutoModerationRuleCreate => LookupKeyAutoModerationRuleCreate();
    case AutoModerationRuleUpdate => LookupKeyAutoModerationRuleUpdate();
    case AutoModerationRuleDelete => LookupKeyAutoModerationRuleDelete();
    case AutoModerationActionExecution => LookupKeyAutoModerationActionExecution();
    case ChannelCreate => LookupKeyChannelCreate();
    case ChannelUpdate => LookupKeyChannelUpdate();
    case ChannelDelete => LookupKeyChannelDelete();
    case ChannelPinsUpdate => LookupKeyChannelPinsUpdate();
    case ThreadCreate => LookupKeyThreadCreate();
    case ThreadUpdate => LookupKeyThreadUpdate();
    case ThreadDelete => LookupKeyThreadDelete();
    case ThreadListSync => LookupKeyThreadListSync();
    case ThreadMemberUpdate => LookupKeyThreadMemberUpdate();
    case ThreadMembersUpdate => LookupKeyThreadMembersUpdate();
    case EntitlementCreate => LookupKeyEntitlementCreate();
    case EntitlementUpdate => LookupKeyEntitlementUpdate();
    case EntitlementDelete => LookupKeyEntitlementDelete();
    case GuildCreate => LookupKeyGuildCreate();
    case GuildUpdate => LookupKeyGuildUpdate();
    case GuildDelete => LookupKeyGuildDelete();
    case GuildAuditLogEntryCreate => LookupKeyGuildAuditLogEntryCreate();
    case GuildBanAdd => LookupKeyGuildBanAdd();
    case GuildBanRemove => LookupKeyGuildBanRemove();
    case GuildEmojisUpdate => LookupKeyGuildEmojisUpdate();
    case GuildStickersUpdate => LookupKeyGuildStickersUpdate();
    case GuildIntegrationsUpdate => LookupKeyGuildIntegrationsUpdate();
    case GuildMemberAdd => LookupKeyGuildMemberAdd();
    case GuildMemberRemove => LookupKeyGuildMemberRemove();
    case GuildMemberUpdate => LookupKeyGuildMemberUpdate();
    case GuildMembersChunk => LookupKeyGuildMembersChunk();
    case GuildRoleCreate => LookupKeyGuildRoleCreate();
    case GuildRoleUpdate => LookupKeyGuildRoleUpdate();
    case GuildRoleDelete => LookupKeyGuildRoleDelete();
    case GuildScheduledEventCreate => LookupKeyGuildScheduledEventCreate();
    case GuildScheduledEventUpdate => LookupKeyGuildScheduledEventUpdate();
    case GuildScheduledEventDelete => LookupKeyGuildScheduledEventDelete();
    case GuildScheduledEventUserAdd => LookupKeyGuildScheduledEventUserAdd();
    case GuildScheduledEventUserRemove => LookupKeyGuildScheduledEventUserRemove();
    case IntegrationCreate => LookupKeyIntegrationCreate();
    case IntegrationUpdate => LookupKeyIntegrationUpdate();
    case IntegrationDelete => LookupKeyIntegrationDelete();
    case InteractionCreate => LookupKeyInteractionCreate();
    case InviteCreate => LookupKeyInviteCreate();
    case InviteDelete => LookupKeyInviteDelete();
    case MessageCreate => LookupKeyMessageCreate();
    case MessageUpdate => LookupKeyMessageUpdate();
    case MessageDelete => LookupKeyMessageDelete();
    case MessageDeleteBulk => LookupKeyMessageDeleteBulk();
    case MessageReactionAdd => LookupKeyMessageReactionAdd();
    case MessageReactionRemove => LookupKeyMessageReactionRemove();
    case MessageReactionRemoveAll => LookupKeyMessageReactionRemoveAll();
    case MessageReactionRemoveEmoji => LookupKeyMessageReactionRemoveEmoji();
    case PresenceUpdate => LookupKeyPresenceUpdate();
    case StageInstanceCreate => LookupKeyStageInstanceCreate();
    case StageInstanceUpdate => LookupKeyStageInstanceUpdate();
    case StageInstanceDelete => LookupKeyStageInstanceDelete();
    case TypingStart => LookupKeyTypingStart();
    case UserUpdate => LookupKeyUserUpdate();
    case VoiceStateUpdate => LookupKeyVoiceStateUpdate();
    case VoiceServerUpdate => LookupKeyVoiceServerUpdate();
    case WebhooksUpdate => LookupKeyWebhooksUpdate();
  }

  /** Whatever the corrected table returns, the key was that kind's Discord tag. */
  lemma LookupSound(key: string, k: EventType)
    requires Lookup(key) == Some(k)
    ensures key == Key(k)
  {
    match k
    case Ready => LookupSoundReady(key);
    case Resumed => LookupSoundResumed(key);
    case ApplicationCommandPermissionsUpdate => LookupSoundApplicationCommandPermissionsUpdate(key);
    case AutoModerationRuleCreate => LookupSoundAutoModerationRuleCreate(key);
    case AutoModerationRuleUpdate => LookupSoundAutoModerationRuleUpdate(key);
    case AutoModerationRuleDelete => LookupSoundAutoModerationRuleDelete(key);
    case AutoModerationActionExecution => LookupSoundAutoModerationActionExecution(key);
    case ChannelCreate => LookupSoundChannelCreate(key);
    case ChannelUpdate => LookupSoundChannelUpdate(key);
    case ChannelDelete => LookupSoundChannelDelete(key);
    case ChannelPinsUpdate => LookupSoundChannelPinsUpdate(key);
    case ThreadCreate => LookupSoundThreadCreate(key);
    case ThreadUpdate => LookupSoundThreadUpdate(key);
    case ThreadDelete => LookupSoundThreadDelete(key);
    case ThreadListSync => LookupSoundThreadListSync(key);
    case ThreadMemberUpdate => LookupSoundThreadMemberUpdate(key);
    case ThreadMembersUpdate => LookupSoundThreadMembersUpdate(key);
    case EntitlementCreate => LookupSoundEntitlementCreate(key);
    case EntitlementUpdate => LookupSoundEntitlementUpdate(key);
    case EntitlementDelete => LookupSoundEntitlementDelete(key);
    case GuildCreate => LookupSoundGuildCreate(key);
    case GuildUpdate => LookupSoundGuildUpdate(key);
    case GuildDelete => LookupSoundGuildDelete(key);
    case GuildAuditLogEntryCreate => LookupSoundGuildAuditLogEntryCreate(key);
    case GuildBanAdd => LookupSoundGuildBanAdd(key);
    case GuildBanRemove => LookupSoundGuildBanRemove(key);
    case GuildEmojisUpdate => LookupSoundGuildEmojisUpdate(key);
    case GuildStickersUpdate => LookupSoundGuildStickersUpdate(key);
    case GuildIntegrationsUpdate => LookupSoundGuildIntegrationsUpdate(key);
    case GuildMemberAdd => LookupSoundGuildMemberAdd(key);
    case GuildMemberRemove => LookupSoundGuildMemberRemove(key);
    case GuildMemberUpdate => LookupSoundGuildMemberUpdate(key);
    case GuildMembersChunk => LookupSoundGuildMembersChunk(key);
    case GuildRoleCreate => LookupSoundGuildRoleCreate(key);
    case GuildRoleUpdate => LookupSoundGuildRoleUpdate(key);
    case GuildRoleDelete => LookupSoundGuildRoleDelete(key);
    case GuildScheduledEventCreate => LookupSoundGuildScheduledEventCreate(key);
    case GuildScheduledEventUpdate => LookupSoundGuildScheduledEventUpdate(key);
    case GuildScheduledEventDelete => LookupSoundGuildScheduledEventDelete(key);
    case GuildScheduledEventUserAdd => LookupSoundGuildScheduledEventUserAdd(key);
    case GuildScheduledEventUserRemove => LookupSoundGuildScheduledEventUserRemove(key);
    case IntegrationCreate => LookupSoundIntegrationCreate(key);
    case IntegrationUpdate => LookupSoundIntegrationUpdate(key);
    case IntegrationDelete => LookupSoundIntegrationDelete(key);
    case InteractionCreate => LookupSoundInteractionCreate(key);
    case InviteCreate => LookupSoundInviteCreate(key);
    case InviteDelete => LookupSoundInviteDelete(key);
    case MessageCreate => LookupSoundMessageCreate(key);
    case MessageUpdate => LookupSoundMessageUpdate(key);
    case MessageDelete => LookupSoundMessageDelete(key);
    case MessageDeleteBulk => LookupSoundMessageDeleteBulk(key);
    case MessageReactionAdd => LookupSoundMessageReactionAdd(key);
    case MessageReactionRemove => LookupSoundMessageReactionRemove(key);
    case MessageReactionRemoveAll => LookupSoundMessageReactionRemoveAll(key);
    case MessageReactionRemoveEmoji => LookupSoundMessageReactionRemoveEmoji(key);
    case PresenceUpdate => LookupSoundPresenceUpdate(key);
    case StageInstanceCreate => LookupSoundStageInstanceCreate(key);
    case StageInstanceUpdate => LookupSoundStageInstanceUpdate(key);
    case StageInstanceDelete => LookupSoundStageInstanceDelete(key);
    case TypingStart => LookupSoundTypingStart(key);
    case UserUpdate => LookupSoundUserUpdate(key);
    case VoiceStateUpdate => LookupSoundVoiceStateUpdate(key);
    case VoiceServerUpdate => LookupSoundVoiceServerUpdate(key);
    case WebhooksUpdate => LookupSoundWebhooksUpdate(key);
  }

  /** Distinct kinds have distinct keys. */
  lemma KeyInjective(k1: EventType, k2: EventType)
    requires Key(k1) == Key(k2)
    ensures k1 == k2
  {
    LookupKey(k1);
    LookupKey(k2);
  }

  /** The corrected `from_str` of a key, in any mix of cases, is that key's kind, and nothing else is. */
  lemma FromStrSome(s: string, k: EventType)
    ensures FromStr(s) == Some(k) <==> Upper(s) == Key(k)
  {
    if Upper(s) == Key(k) {
      LookupKey(k);
    }
    if FromStr(s) == Some(k) {
      LookupSound(Upper(s), k);
    }
  }

  /** The corrected `from_str` fails exactly on the strings whose upper-case form is no key, "" among them. */
  lemma FromStrNone(s: string)
    ensures FromStr(s) == None <==> forall k :: Upper(s) != Key(k)
  {
    if FromStr(s).Some? {
      LookupSound(Upper(s), FromStr(s).value);
    }
    forall k | Upper(s) == Key(k)
      ensures FromStr(s) != None
    {
      LookupKey(k);
    }
  }

  lemma FromStrEmpty()
    ensures FromStr("") == None
  {
    FromStrNone("");
  }

  /** The corrected `from_str` ignores case: upper-casing first changes nothing. */
  lemma FromStrCaseInsensitive(s: string)
    ensures FromStr(Upper(s)) == FromStr(s)
  {
    UpperIdempotent(s);
  }

  /** The corrected `from_str` recognises the tag Discord sends for `k` as `k`. */
  lemma FromStrKey(k: EventType)
    ensures FromStr(Key(k)) == Some(k)
  {
    LookupKey(k);
    UpperKeeps(Key(k));
  }

  // ----- the table as written against the corrected one -----

  /** Outside the eight auto-moderation spellings, the table as written and the
      corrected one agree. */
  lemma AsWrittenAgrees(s: string)
    requires Upper(s) !in {"AUTO_MODERATION_RULE_CREATE", "AUTO_MODERATION_RULE_UPDATE", "AUTO_MODERATION_RULE_DELETE", "AUTO_MODERATION_ACTION_EXECUTION", "AUTOMODERATION_RULE_CREATE", "AUTOMODERATION_RULE_UPDATE", "AUTOMODERATION_RULE_DELETE", "AUTOMODERATION_ACTION_EXECUTION"}
    ensures FromStrAsWritten(s) == FromStr(s)
  {
  }

  /** The tag Discord sends for each auto-moderation event is unknown to the table as
      written, while the corrected table recognises it. `GatewayApi.AsWrittenRejectsAutoModeration`
      carries this to the decoder, which rejects such a frame as an unknown event type. */
  lemma AsWrittenMissesAutoModeration(k: EventType)
    requires k.AutoModerationRuleCreate? || k.AutoModerationRuleUpdate?
      || k.AutoModerationRuleDelete? || k.AutoModerationActionExecution?
    ensures FromStrAsWritten(Key(k)) == None
    ensures FromStr(Key(k)) == Some(k)
  {
    FromStrKey(k);
    LookupKey(k);
    UpperKeeps(Key(k));
    match k
    case AutoModerationRuleCreate =>
      KeyOfAutoModerationRuleCreate();
      assert LookupAsWritten("AUTO_MODERATION_RULE_CREATE") == None;
    case AutoModerationRuleUpdate =>
      KeyOfAutoModerationRuleUpdate();
      assert LookupAsWritten("AUTO_MODERATION_RULE_UPDATE") == None;
    case AutoModerationRuleDelete =>
      KeyOfAutoModerationRuleDelete();
      assert LookupAsWritten("AUTO_MODERATION_RULE_DELETE") == None;
    case AutoModerationActionExecution =>
      KeyOfAutoModerationActionExecution();
      assert LookupAsWritten("AUTO_MODERATION_ACTION_EXECUTION") == None;
  }

  // ----- the table as written, on its own terms -----

  /** The corrected table knows none of the four spellings the table as written uses. */
  lemma UnknownAutomoderationRuleCreate() ensures Lookup("AUTOMODERATION_RULE_CREATE") == None {}
  lemma UnknownAutomoderationRuleUpdate() ensures Lookup("AUTOMODERATION_RULE_UPDATE") == None {}
  lemma UnknownAutomoderationRuleDelete() ensures Lookup("AUTOMODERATION_RULE_DELETE") == None {}
  lemma UnknownAutomoderationActionExecution() ensures Lookup("AUTOMODERATION_ACTION_EXECUTION") == None {}

  /** Outside auto-moderation, whatever key the corrected table maps to a kind is mapped
      to the same kind by the table as written. */
  lemma LookupAsWrittenAgrees(key: string, k: EventType)
    requires Lookup(key) == Some(k) && !IsAutoModeration(k)
    ensures LookupAsWritten(key) == Some(k)
  {
    KnownAutoModerationKeys();
    UnknownAutomoderationRuleCreate();
    UnknownAutomoderationRuleUpdate();
    UnknownAutomoderationRuleDelete();
    UnknownAutomoderationActionExecution();
  }

  lemma KnownAutoModerationKeys()
    ensures Lookup("AUTO_MODERATION_RULE_CREATE") == Some(AutoModerationRuleCreate)
    ensures Lookup("AUTO_MODERATION_RULE_UPDATE") == Some(AutoModerationRuleUpdate)
    ensures Lookup("AUTO_MODERATION_RULE_DELETE") == Some(AutoModerationRuleDelete)
    ensures Lookup("AUTO_MODERATION_ACTION_EXECUTION") == Some(AutoModerationActionExecution)
  {
  }

  /** Whatever the table as written returns, the key was the one it expects for that kind. */
  lemma LookupAsWrittenSound(key: string, k: EventType)
    requires LookupAsWritten(key) == Some(k)
    ensures key == KeyAsWritten(k)
  {
    if IsAutoModeration(k) {
      AsWrittenSoundAutoModeration(key, k);
    } else {
      AsWrittenSoundOther(key, k);
      KeyAsWrittenOther(k);
    }
  }

  /** Outside auto-moderation, the table as written expects the corrected key. */
  lemma KeyAsWrittenOther(k: EventType)
    requires !IsAutoModeration(k)
    ensures KeyAsWritten(k) == Key(k)
  {
  }

  lemma AsWrittenSoundOther(key: string, k: EventType)
    requires LookupAsWritten(key) == Some(k) && !IsAutoModeration(k)
    ensures key == Key(k)
  {
    AsWrittenFallsThrough(key);
    LookupSound(key, k);
  }

  lemma AsWrittenSoundAutoModeration(key: string, k: EventType)
    requires LookupAsWritten(key) == Some(k) && IsAutoModeration(k)
    ensures key == KeyAsWritten(k)
  {
    if key != "AUTOMODERATION_RULE_CREATE" && key != "AUTOMODERATION_RULE_UPDATE"
      && key != "AUTOMODERATION_RULE_DELETE" && key != "AUTOMODERATION_ACTION_EXECUTION"
    {
      AsWrittenFallsThrough(key);
      match k
      case AutoModerationRuleCreate => LookupSoundAutoModerationRuleCreate(key);
      case AutoModerationRuleUpdate => LookupSoundAutoModerationRuleUpdate(key);
      case AutoModerationRuleDelete => LookupSoundAutoModerationRuleDelete(key);
      case AutoModerationActionExecution => LookupSoundAutoModerationActionExecution(key);
    }
  }

  /** Away from its own four spellings, whatever the table as written knows, the
      corrected table knows too, and the key is none of the spellings Discord sends. */
  lemma AsWrittenFallsThrough(key: string)
    requires key != "AUTOMODERATION_RULE_CREATE" && key != "AUTOMODERATION_RULE_UPDATE"
    requires key != "AUTOMODERATION_RULE_DELETE" && key != "AUTOMODERATION_ACTION_EXECUTION"
    requires LookupAsWritten(key).Some?
    ensures LookupAsWritten(key) == Lookup(key)
    ensures key != "AUTO_MODERATION_RULE_CREATE" && key != "AUTO_MODERATION_RULE_UPDATE"
    ensures key != "AUTO_MODERATION_RULE_DELETE" && key != "AUTO_MODERATION_ACTION_EXECUTION"
  {
  }

  /** Every kind's expected key is upper case and gives that kind back. */
  lemma LookupAsWrittenKey(k: EventType)
    ensures LookupAsWritten(KeyAsWritten(k)) == Some(k)
    ensures IsUpper(KeyAsWritten(k))
  {
    if IsAutoModeration(k) {
      AutoModerationKeysUpper();
    } else {
      LookupKey(k);
      LookupAsWrittenAgrees(Key(k), k);
    }
  }

  lemma AutoModerationKeysUpper()
    ensures IsUpper("AUTOMODERATION_RULE_CREATE") && IsUpper("AUTOMODERATION_RULE_UPDATE")
    ensures IsUpper("AUTOMODERATION_RULE_DELETE") && IsUpper("AUTOMODERATION_ACTION_EXECUTION")
  {
  }

  /** `from_str` as written returns `Some(k)` exactly when the upper-cased string is the
      key it expects for `k`. */
  lemma FromStrAsWrittenSome(s: string, k: EventType)
    ensures FromStrAsWritten(s) == Some(k) <==> Upper(s) == KeyAsWritten(k)
  {
    if Upper(s) == KeyAsWritten(k) {
      LookupAsWrittenKey(k);
    }
  }

  /** The table as written recognises the key it expects for every kind. */
  lemma FromStrAsWrittenKey(k: EventType)
    ensures FromStrAsWritten(KeyAsWritten(k)) == Some(k)
  {
    LookupAsWrittenKey(k);
    UpperKeeps(KeyAsWritten(k));
  }

  /** Both tables reject the empty tag. */
  lemma FromStrAsWrittenEmpty()
    ensures FromStrAsWritten("") == None
  {
    FromStrEmpty();
    AsWrittenAgrees("");
  }

  /** The spellings the table as written expects for the auto-moderation events are
      unknown to the corrected table. */
  lemma CorrectedRejectsMisspelling(k: EventType)
    requires IsAutoModeration(k)
    ensures FromStrAsWritten(KeyAsWritten(k)) == Some(k)
    ensures FromStr(KeyAsWritten(k)) == None
  {
    LookupAsWrittenKey(k);
    UpperKeeps(KeyAsWritten(k));
    UnknownAutomoderationRuleCreate();
    UnknownAutomoderationRuleUpdate();
    UnknownAutomoderationRuleDelete();
    UnknownAutomoderationActionExecution();
  }
}
