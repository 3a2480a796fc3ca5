/** The REST request builder: `HttpApiCall::to_request` (src/http_api.rs:1145-3279), which
    maps each call of the Discord REST API to the URL, HTTP method and body of its request.

    Each call type keeps the fields that go into the URL (path segments and query
    values); fields that only go into the JSON body are dropped, and the body is only
    said to be empty or not. URLs are plain strings: `url::Url::parse` is not modelled. */
module HttpApi {
  import opened Wrappers
  import opened Types
  import opened QueryParams

  /** The `http::Method`s the table uses. */
  datatype Method = GET | POST | PUT | PATCH | DELETE

  /** An empty body, or a serialised payload. */
  datatype Body = Empty | Payload

  /** The part of a request after `HTTP_URL`. */
  datatype Route = Route(path: string, verb: Method, body: Body)

  /** What `to_request` returns. */
  datatype Request = Request(url: string, verb: Method, body: Body)

  /** Every route is a path under the API root, and reads and deletes carry no body. */
  predicate RouteShape(r: Route) {
    |r.path| > 0 && r.path[0] == '/' && (r.verb.GET? || r.verb.DELETE? ==> r.body.Empty?)
  }

  // ----- rendering query values -----

  function Digit(d: nat): char
    requires d < 10
  {
    "0123456789"[d]
  }

  /** The decimal digits of `n`, most significant first (Rust's `to_string`). */
  function NatToString(n: nat): (r: string)
    ensures |r| > 0
    ensures forall i :: 0 <= i < |r| ==> '0' <= r[i] <= '9'
  {
    if n < 10 then [Digit(n)] else NatToString(n / 10) + [Digit(n % 10)]
  }

  /** `i64::to_string`: a minus sign before the digits of a negative number. */
  function IntToString(i: int): (r: string)
    ensures |r| > 0
    ensures r[0] == '-' <==> i < 0
    ensures forall j :: 0 < j < |r| ==> '0' <= r[j] <= '9'
  {
    if i < 0 then "-" + NatToString(-i) else NatToString(i)
  }

  /** `bool::to_string`. */
  function BoolToString(b: bool): (r: string)
    ensures r == "true" || r == "false"
    ensures r == "true" <==> b
  {
    if b then "true" else "false"
  }

  /** `x.map(|x| x.to_string())` for the integer and boolean query values. */
  function OptIntString(o: Option<int>): Option<string> {
    match o
    case None => None
    case Some(i) => Some(IntToString(i))
  }

  function OptBoolString(o: Option<bool>): Option<string> {
    match o
    case None => None
    case Some(b) => Some(BoolToString(b))
  }

  /** The number a string of decimal digits denotes. */
  function DigitsValue(s: string): nat
    requires forall i :: 0 <= i < |s| ==> '0' <= s[i] <= '9'
  {
    if |s| == 0 then 0 else 10 * DigitsValue(s[..|s| - 1]) + (s[|s| - 1] as int - '0' as int)
  }

  /** Reading the rendered digits back gives the number. */
  lemma {:induction false} NatToStringRoundTrip(n: nat)
    ensures DigitsValue(NatToString(n)) == n
  {
    var r := NatToString(n);
    if n >= 10 {
      NatToStringRoundTrip(n / 10);
      assert r[..|r| - 1] == NatToString(n / 10);
    }
  }

  /** After the sign, the rendering of a negative number is that of its absolute value. */
  lemma IntToStringSign(i: int)
    ensures i < 0 ==> IntToString(i)[1..] == NatToString(-i)
  {
    if i < 0 {
      assert ("-" + NatToString(-i))[1..] == NatToString(-i);
    }
  }

  lemma NatToStringInjective(a: nat, b: nat)
    requires NatToString(a) == NatToString(b)
    ensures a == b
  {
    NatToStringRoundTrip(a);
    NatToStringRoundTrip(b);
  }

  /** Distinct integers are rendered differently, so a query value names one number. */
  lemma IntToStringInjective(a: int, b: int)
    requires IntToString(a) == IntToString(b)
    ensures a == b
  {
    var r := IntToString(a);
    assert a < 0 <==> b < 0 by {
      assert r[0] == '-' <==> a < 0;
      assert r[0] == '-' <==> b < 0;
    }
    if a < 0 {
      IntToStringSign(a);
      IntToStringSign(b);
      NatToStringInjective(-a, -b);
    } else {
      NatToStringInjective(a, b);
    }
  }

  // ----- the route table, one function per call type -----

  datatype ApplicationsCall =
    | GetMy
    | UpdateMy
    | Get(applicationId: string)
    | Update(applicationId: string)
  function ApplicationsRoute(c: ApplicationsCall): (r: Route)
    ensures RouteShape(r)
  {
    match c
    case GetMy =>
      Route("/oauth2/applications/@me", GET, Empty)
    case UpdateMy =>
      Route("/oauth2/applications/@me", PATCH, Payload)
    case Get(applicationId) =>
      Route("/oauth2/applications/" + applicationId, GET, Empty)
    case Update(applicationId) =>
      Route("/oauth2/applications/" + applicationId, PATCH, Payload)
  }

  datatype ChannelsCall =
    | CreateDm
    | SetPermissions(channelId: string, overwriteId: string)
    | DeletePermission(channelId: string, overwriteId: string)
    | AddGroupDmUser(channelId: string, userId: string)
    | DeleteGroupDmUser(channelId: string, userId: string)
    | FollowChannel(channelId: string)
    | TriggerTypingIndicator(channelId: string)
    | PinMessage(channelId: string, messageId: string)
    | UnpinMessage(channelId: string, messageId: string)
    | GetPinnedMessages(channelId: string)
    | ListGuildChannels(guildId: string)
    | CreateGuildChannel(guildId: string)
    | BulkUpdateGuildChannels(guildId: string)
    | Get(channelId: string)
    | Delete(channelId: string)
    | Update(channelId: string)
  function ChannelsRoute(c: ChannelsCall): (r: Route)
    ensures RouteShape(r)
  {
    match c
    case CreateDm =>
      Route("/users/@me/channels", POST, Payload)
    case SetPermissions(channelId, overwriteId) =>
      Route("/channels/" + channelId + "/permissions/" + overwriteId, PUT, Payload)
    case DeletePermission(channelId, overwriteId) =>
      Route("/channels/" + channelId + "/permissions/" + overwriteId, DELETE, Empty)
    case AddGroupDmUser(channelId, userId) =>
      Route("/channels/" + channelId + "/recipients/" + userId, PUT, Empty)
    case DeleteGroupDmUser(channelId, userId) =>
      Route("/channels/" + channelId + "/recipients/" + userId, DELETE, Empty)
    case FollowChannel(channelId) =>
      Route("/channels/" + channelId + "/followers", POST, Payload)
    case TriggerTypingIndicator(channelId) =>
      Route("/channels/" + channelId + "/typing", POST, Empty)
    case PinMessage(channelId, messageId) =>
      Route("/channels/" + channelId + "/pins/" + messageId, PUT, Empty)
    case UnpinMessage(channelId, messageId) =>
      Route("/channels/" + channelId + "/pins/" + messageId, DELETE, Empty)
    case GetPinnedMessages(channelId) =>
      Route("/channels/" + channelId + "/pins", GET, Empty)
    case ListGuildChannels(guildId) =>
      Route("/guilds/" + guildId + "/channels", GET, Empty)
    case CreateGuildChannel(guildId) =>
      Route("/guilds/" + guildId + "/channels", POST, Payload)
    case BulkUpdateGuildChannels(guildId) =>
      Route("/guilds/" + guildId + "/channels", PUT, Payload)
    case Get(channelId) =>
      Route("/channels/" + channelId, GET, Empty)
    case Delete(channelId) =>
      Route("/channels/" + channelId, DELETE, Empty)
    case Update(channelId) =>
      Route("/channels/" + channelId, PATCH, Payload)
  }

  datatype CommandsCall =
    | ListGuildApplicationCommandPermissions(applicationId: string, guildId: string)
    | GetGuildApplicationCommandPermissions(applicationId: string, guildId: string, commandId: string)
    | SetGuildApplicationCommandPermissions(applicationId: string, guildId: string, commandId: string)
    | GetGuildApplicationCommand(applicationId: string, guildId: string, commandId: string)
    | DeleteGuildApplicationCommand(applicationId: string, guildId: string, commandId: string)
    | UpdateGuildApplicationCommand(applicationId: string, guildId: string, commandId: string)
    | ListGuildApplicationCommands(applicationId: string, guildId: string, withLocalizations: Option<bool>)
    | BulkSetGuildApplicationCommands(applicationId: string, guildId: string)
    | CreateGuildApplicationCommand(applicationId: string, guildId: string)
    | GetGlobalApplicationCommand(applicationId: string, commandId: string)
    | DeleteGlobalApplicationCommand(applicationId: string, commandId: string)
    | UpdateApplicationCommand(applicationId: string, commandId: string)
    | ListApplicationCommands(applicationId: string, withLocalizations: Option<bool>)
    | BulkSetApplicationCommands(applicationId: string)
    | CreateApplicationCommand(applicationId: string)
  function CommandsRoute(c: CommandsCall): (r: Route)
    ensures RouteShape(r)
  {
    match c
    case ListGuildApplicationCommandPermissions(applicationId, guildId) =>
      Route("/applications/" + applicationId + "/guilds/" + guildId + "/commands/permissions", GET, Empty)
    case GetGuildApplicationCommandPermissions(applicationId, guildId, commandId) =>
      Route("/applications/" + applicationId + "/guilds/" + guildId + "/commands/" + commandId + "/permissions", GET, Empty)
    case SetGuildApplicationCommandPermissions(applicationId, guildId, commandId) =>
      Route("/applications/" + applicationId + "/guilds/" + guildId + "/commands/" + commandId + "/permissions", PUT, Payload)
    case GetGuildApplicationCommand(applicationId, guildId, commandId) =>
      Route("/applications/" + applicationId + "/guilds/" + guildId + "/commands/" + commandId, GET, Empty)
    case DeleteGuildApplicationCommand(applicationId, guildId, commandId) =>
      Route("/applications/" + applicationId + "/guilds/" + guildId + "/commands/" + commandId, DELETE, Empty)
    case UpdateGuildApplicationCommand(applicationId, guildId, commandId) =>
      Route("/applications/" + applicationId + "/guilds/" + guildId + "/commands/" + commandId, PATCH, Payload)
    case ListGuildApplicationCommands(applicationId, guildId, withLocalizations) =>
      Route("/applications/" + applicationId + "/guilds/" + guildId + "/commands" + Query([("with_localizations", OptBoolString(withLocalizations))]), GET, Empty)
    case BulkSetGuildApplicationCommands(applicationId, guildId) =>
      Route("/applications/" + applicationId + "/guilds/" + guildId + "/commands", PUT, Payload)
    case CreateGuildApplicationCommand(applicationId, guildId) =>
      Route("/applications/" + applicationId + "/guilds/" + guildId + "/commands", POST, Payload)
    case GetGlobalApplicationCommand(applicationId, commandId) =>
      Route("/applications/" + applicationId + "/commands/" + commandId, GET, Empty)
    case DeleteGlobalApplicationCommand(applicationId, commandId) =>
      Route("/applications/" + applicationId + "/commands/" + commandId, DELETE, Empty)
    case UpdateApplicationCommand(applicationId, commandId) =>
      Route("/applications/" + applicationId + "/commands/" + commandId, PATCH, Payload)
    case ListApplicationCommands(applicationId, withLocalizations) =>
      Route("/applications/" + applicationId + "/commands" + Query([("with_localizations", OptBoolString(withLocalizations))]), GET, Empty)
    case BulkSetApplicationCommands(applicationId) =>
      Route("/applications/" + applicationId + "/commands", PUT, Payload)
    case CreateApplicationCommand(applicationId) =>
      Route("/applications/" + applicationId + "/commands", POST, Payload)
  }

  datatype EmojiCall =
    | AddMyReaction(channelId: string, messageId: string, emojiName: string)
    | DeleteMyReaction(channelId: string, messageId: string, emojiName: string)
    | ListReactionsByEmoji(channelId: string, messageId: string, emojiName: string, after: Option<string>, limit: Option<int>)
    | DeleteReactionsByEmoji(channelId: string, messageId: string, emojiName: string)
    | GetGuildEmoji(guildId: string, emojiId: string)
    | DeleteGuildEmoji(guildId: string, emojiId: string)
    | UpdateGuildEmoji(guildId: string, emojiId: string)
    | ListGuildEmojis(guildId: string)
    | CreateGuildEmoji(guildId: string)
  function EmojiRoute(c: EmojiCall): (r: Route)
    ensures RouteShape(r)
  {
    match c
    case AddMyReaction(channelId, messageId, emojiName) =>
      Route("/channels/" + channelId + "/messages/" + messageId + "/reactions/" + emojiName, PUT, Empty)
    case DeleteMyReaction(channelId, messageId, emojiName) =>
      Route("/channels/" + channelId + "/messages/" + messageId + "/reactions/" + emojiName, DELETE, Empty)
    case ListReactionsByEmoji(channelId, messageId, emojiName, after, limit) =>
      Route("/channels/" + channelId + "/messages/" + messageId + "/reactions/" + emojiName + Query([("after", after), ("limit", OptIntString(limit))]), GET, Empty)
    case DeleteReactionsByEmoji(channelId, messageId, emojiName) =>
      Route("/channels/" + channelId + "/messages/" + messageId + "/reactions/" + emojiName, DELETE, Empty)
    case GetGuildEmoji(guildId, emojiId) =>
      Route("/guilds/" + guildId + "/emojis/" + emojiId, GET, Empty)
    case DeleteGuildEmoji(guildId, emojiId) =>
      Route("/guilds/" + guildId + "/emojis/" + emojiId, DELETE, Empty)
    case UpdateGuildEmoji(guildId, emojiId) =>
      Route("/guilds/" + guildId + "/emojis/" + emojiId, PATCH, Payload)
    case ListGuildEmojis(guildId) =>
      Route("/guilds/" + guildId + "/emojis", GET, Empty)
    case CreateGuildEmoji(guildId) =>
      Route("/guilds/" + guildId + "/emojis", POST, Payload)
  }

  datatype GatewayCall =
    | GetBotGateway
    | GetGateway
  function GatewayRoute(c: GatewayCall): (r: Route)
    ensures RouteShape(r)
  {
    match c
    case GetBotGateway =>
      Route("/gateway/bot", GET, Empty)
    case GetGateway =>
      Route("/gateway", GET, Empty)
  }

  datatype GuildsCall =
    | ListMyGuilds(before: Option<string>, after: Option<string>, limit: Option<int>, withCounts: Option<bool>)
    | Get(guildId: string, withCounts: Option<bool>)
    | Create
    | Update(guildId: string)
    | Delete(guildId: string)
    | Leave(guildId: string)
    | GetNewMemberWelcome(guildId: string)
    | GetWelcomeScreen(guildId: string)
    | UpdateWelcomeScreen(guildId: string)
    | DeleteIntegration(guildId: string, integrationId: string)
    | ListIntegration(guildId: string)
    | GetWidget(guildId: string)
    | GetWidgetPng(guildId: string, style: Option<string>)
    | GetWidgetSettings(guildId: string)
    | UpdateWidgetSettings(guildId: string)
    | GetOnboarding(guildId: string)
    | PutOnboarding(guildId: string)
    | GetVanityUrl(guildId: string)
    | GetPreview(guildId: string)
    | PreviewPrune(guildId: string)
    | Prune(guildId: string)
    | GetUserBan(guildId: string, userId: string)
    | BanUser(guildId: string, userId: string)
    | UnbanUser(guildId: string, userId: string)
    | ListBans(guildId: string, limit: Option<int>, before: Option<string>, after: Option<string>)
    | SetMfaLevel(guildId: string)
  function GuildsRoute(c: GuildsCall): (r: Route)
    ensures RouteShape(r)
  {
    match c
    case ListMyGuilds(before, after, limit, withCounts) =>
      Route("/users/@me/guilds" + Query([("before", before), ("after", after), ("limit", OptIntString(limit)), ("with_counts", OptBoolString(withCounts))]), GET, Empty)
    case Get(guildId, withCounts) =>
      Route("/guilds/" + guildId + Query([("with_counts", OptBoolString(withCounts))]), GET, Empty)
    case Create =>
      Route("/guilds", POST, Payload)
    case Update(guildId) =>
      Route("/guilds/" + guildId, PATCH, Payload)
    case Delete(guildId) =>
      Route("/guilds/" + guildId, DELETE, Empty)
    case Leave(guildId) =>
      Route("/users/@me/guilds/" + guildId, DELETE, Empty)
    case GetNewMemberWelcome(guildId) =>
      Route("/guilds/" + guildId + "/welcome-screen", GET, Empty)
    case GetWelcomeScreen(guildId) =>
      Route("/guilds/" + guildId + "/welcome-screen", GET, Empty)
    case UpdateWelcomeScreen(guildId) =>
      Route("/guilds/" + guildId + "/welcome-screen", PATCH, Payload)
    case DeleteIntegration(guildId, integrationId) =>
      Route("/guilds/" + guildId + "/integrations/" + integrationId, DELETE, Empty)
    case ListIntegration(guildId) =>
      Route("/guilds/" + guildId + "/integrations", GET, Empty)
    case GetWidget(guildId) =>
      Route("/guilds/" + guildId + "/widget", GET, Empty)
    case GetWidgetPng(guildId, style) =>
      Route("/guilds/" + guildId + "/widget.png" + Query([("style", style)]), GET, Empty)
    case GetWidgetSettings(guildId) =>
      Route("/guilds/" + guildId + "/widget.json", GET, Empty)
    case UpdateWidgetSettings(guildId) =>
      Route("/guilds/" + guildId + "/widget", PATCH, Payload)
    case GetOnboarding(guildId) =>
      Route("/guilds/" + guildId + "/onboarding", GET, Empty)
    case PutOnboarding(guildId) =>
      Route("/guilds/" + guildId + "/onboarding", PUT, Payload)
    case GetVanityUrl(guildId) =>
      Route("/guilds/" + guildId + "/vanity-url", GET, Empty)
    case GetPreview(guildId) =>
      Route("/guilds/" + guildId + "/preview", GET, Empty)
    case PreviewPrune(guildId) =>
      Route("/guilds/" + guildId + "/prune", GET, Empty)
    case Prune(guildId) =>
      Route("/guilds/" + guildId + "/prune", POST, Empty)
    case GetUserBan(guildId, userId) =>
      Route("/guilds/" + guildId + "/bans/" + userId, GET, Empty)
    case BanUser(guildId, userId) =>
      Route("/guilds/" + guildId + "/bans/" + userId, PUT, Empty)
    case UnbanUser(guildId, userId) =>
      Route("/guilds/" + guildId + "/bans/" + userId, DELETE, Empty)
    case ListBans(guildId, limit, before, after) =>
      Route("/guilds/" + guildId + "/bans" + Query([("limit", OptIntString(limit)), ("before", before), ("after", after)]), GET, Empty)
    case SetMfaLevel(guildId) =>
      Route("/guilds/" + guildId + "/mfa-level", PATCH, Payload)
  }

  datatype GuildTemplatesCall =
    | Get(code: string)
    | CreateFromTemplate(code: string)
    | Sync(guildId: string, code: string)
    | Delete(guildId: string, code: string)
    | Update(guildId: string, code: string)
    | List(guildId: string)
    | Create(guildId: string)
  function GuildTemplatesRoute(c: GuildTemplatesCall): (r: Route)
    ensures RouteShape(r)
  {
    match c
    case Get(code) =>
      Route("/guilds/templates/" + code, GET, Empty)
    case CreateFromTemplate(code) =>
      Route("/guilds/templates/" + code, POST, Payload)
    case Sync(guildId, code) =>
      Route("/guilds/" + guildId + "/templates/" + code, PUT, Empty)
    case Delete(guildId, code) =>
      Route("/guilds/" + guildId + "/templates/" + code, DELETE, Empty)
    case Update(guildId, code) =>
      Route("/guilds/" + guildId + "/templates/" + code, PATCH, Payload)
    case List(guildId) =>
      Route("/guilds/" + guildId + "/templates", GET, Empty)
    case Create(guildId) =>
      Route("/guilds/" + guildId + "/templates", POST, Payload)
  }

  datatype InteractionsCall =
    | GetOriginalWebhookMessage(webhookId: string, webhookToken: string, threadId: Option<string>)
    | DeleteOriginalWebhookMessage(webhookId: string, webhookToken: string, threadId: Option<string>)
    | UpdateOriginalWebhookMessage(webhookId: string, webhookToken: string, threadId: Option<string>)
    | CreateInteractionResponse(interactionId: string, interactionToken: string)
    | GetWebhookMessage(webhookId: string, webhookToken: string, messageId: string, threadId: Option<string>)
    | DeleteWebhookMessage(webhookId: string, webhookToken: string, messageId: string, threadId: Option<string>)
    | UpdateWebhookMessage(webhookId: string, webhookToken: string, messageId: string, threadId: Option<string>)
  function InteractionsRoute(c: InteractionsCall): (r: Route)
    ensures RouteShape(r)
  {
    match c
    case GetOriginalWebhookMessage(webhookId, webhookToken, threadId) =>
      Route("/webhooks/" + webhookId + "/" + webhookToken + "/messages/@original" + Query([("thread_id", threadId)]), GET, Empty)
    case DeleteOriginalWebhookMessage(webhookId, webhookToken, threadId) =>
      Route("/webhooks/" + webhookId + "/" + webhookToken + "/messages/@original" + Query([("thread_id", threadId)]), DELETE, Empty)
    case UpdateOriginalWebhookMessage(webhookId, webhookToken, threadId) =>
      Route("/webhooks/" + webhookId + "/" + webhookToken + "/messages/@original" + Query([("thread_id", threadId)]), PATCH, Payload)
    case CreateInteractionResponse(interactionId, interactionToken) =>
      Route("/interactions/" + interactionId + "/" + interactionToken + "/callback", POST, Payload)
    case GetWebhookMessage(webhookId, webhookToken, messageId, threadId) =>
      Route("/webhooks/" + webhookId + "/" + webhookToken + "/messages/" + messageId + Query([("thread_id", threadId)]), GET, Empty)
    case DeleteWebhookMessage(webhookId, webhookToken, messageId, threadId) =>
      Route("/webhooks/" + webhookId + "/" + webhookToken + "/messages/" + messageId + Query([("thread_id", threadId)]), DELETE, Empty)
    case UpdateWebhookMessage(webhookId, webhookToken, messageId, threadId) =>
      Route("/webhooks/" + webhookId + "/" + webhookToken + "/messages/" + messageId + Query([("thread_id", threadId)]), PATCH, Payload)
  }

  datatype InvitesCall =
    | GetChannel(channelId: string)
    | CreateChannel(channelId: string)
    | GetGuild(guildId: string)
    | Resolve(code: string, withCounts: Option<bool>, guildScheduledEventId: Option<string>)
    | Delete(code: string)
  function InvitesRoute(c: InvitesCall): (r: Route)
    ensures RouteShape(r)
  {
    match c
    case GetChannel(channelId) =>
      Route("/channels/" + channelId + "/invites", GET, Empty)
    case CreateChannel(channelId) =>
      Route("/channels/" + channelId + "/invites", POST, Payload)
    case GetGuild(guildId) =>
      Route("/guilds/" + guildId + "/invites", GET, Empty)
    case Resolve(code, withCounts, guildScheduledEventId) =>
      Route("/invites/" + code + Query([("with_counts", OptBoolString(withCounts)), ("guild_scheduled_event_id", guildScheduledEventId)]), GET, Empty)
    case Delete(code) =>
      Route("/invites/" + code, DELETE, Empty)
  }

  datatype MembersCall =
    | GetMe(guildId: string)
    | UpdateMe(guildId: string)
    | Search(guildId: string, limit: Option<int>, query: Option<string>)
    | GetOne(guildId: string, userId: string)
    | GetAll(guildId: string, limit: Option<int>, after: Option<int>)
    | Add(guildId: string, userId: string)
    | Update(guildId: string, userId: string)
    | Delete(guildId: string, userId: string)
  function MembersRoute(c: MembersCall): (r: Route)
    ensures RouteShape(r)
  {
    match c
    case GetMe(guildId) =>
      Route("/guilds/" + guildId + "/members/@me", GET, Empty)
    case UpdateMe(guildId) =>
      Route("/guilds/" + guildId + "/members/@me", PATCH, Payload)
    case Search(guildId, limit, query) =>
      Route("/guilds/" + guildId + "/members/search" + Query([("limit", OptIntString(limit)), ("query", query)]), GET, Empty)
    case GetOne(guildId, userId) =>
      Route("/guilds/" + guildId + "/members/" + userId, GET, Empty)
    case GetAll(guildId, limit, after) =>
      Route("/guilds/" + guildId + "/members" + Query([("limit", OptIntString(limit)), ("after", OptIntString(after))]), GET, Empty)
    case Add(guildId, userId) =>
      Route("/guilds/" + guildId + "/members/" + userId, PUT, Payload)
    case Update(guildId, userId) =>
      Route("/guilds/" + guildId + "/members/" + userId, PATCH, Payload)
    case Delete(guildId, userId) =>
      Route("/guilds/" + guildId + "/members/" + userId, DELETE, Empty)
  }

  datatype MessagesCall =
    | GetOne(channelId: string, messageId: string)
    | GetAll(channelId: string, around: Option<string>, before: Option<string>, after: Option<string>, limit: Option<int>)
    | Create(channelId: string)
    | Update(channelId: string, messageId: string)
    | Delete(channelId: string, messageId: string)
    | BulkDelete(channelId: string)
    | GetReactions(channelId: string, messageId: string, emojiName: string, after: Option<string>, limit: Option<int>)
    | DeleteEmoji(channelId: string, messageId: string, emojiName: string, userId: string)
    | DeleteAllReactionsByEmoji(channelId: string, messageId: string, emojiName: string)
    | DeleteAllReactions(channelId: string, messageId: string)
    | CrossPost(channelId: string, messageId: string)
  function MessagesRoute(c: MessagesCall): (r: Route)
    ensures RouteShape(r)
  {
    match c
    case GetOne(channelId, messageId) =>
      Route("/channels/" + channelId + "/messages/" + messageId, GET, Empty)
    case GetAll(channelId, around, before, after, limit) =>
      Route("/channels/" + channelId + "/messages" + Query([("around", around), ("before", before), ("after", after), ("limit", OptIntString(limit))]), GET, Empty)
    case Create(channelId) =>
      Route("/channels/" + channelId + "/messages", POST, Payload)
    case Update(channelId, messageId) =>
      Route("/channels/" + channelId + "/messages/" + messageId, PATCH, Payload)
    case Delete(channelId, messageId) =>
      Route("/channels/" + channelId + "/messages/" + messageId, DELETE, Empty)
    case BulkDelete(channelId) =>
      Route("/channels/" + channelId + "/messages/bulk-delete", POST, Payload)
    case GetReactions(channelId, messageId, emojiName, after, limit) =>
      Route("/channels/" + channelId + "/messages/" + messageId + "/reactions/" + emojiName + Query([("after", after), ("limit", OptIntString(limit))]), GET, Empty)
    case DeleteEmoji(channelId, messageId, emojiName, userId) =>
      Route("/channels/" + channelId + "/messages/" + messageId + "/reactions/" + emojiName + "/" + userId, DELETE, Empty)
    case DeleteAllReactionsByEmoji(channelId, messageId, emojiName) =>
      Route("/channels/" + channelId + "/messages/" + messageId + "/reactions/" + emojiName, DELETE, Empty)
    case DeleteAllReactions(channelId, messageId) =>
      Route("/channels/" + channelId + "/messages/" + messageId + "/reactions", DELETE, Empty)
    case CrossPost(channelId, messageId) =>
      Route("/channels/" + channelId + "/messages/" + messageId + "/crosspost", POST, Empty)
  }

  datatype OAuthCall =
    | GetApplications
    | GetAuthorization
  function OAuthRoute(c: OAuthCall): (r: Route)
    ensures RouteShape(r)
  {
    match c
    case GetApplications =>
      Route("/oauth2/applications/@me", GET, Empty)
    case GetAuthorization =>
      Route("/oauth2/@me", GET, Empty)
  }

  datatype RolesCall =
    | AddGuildMemberRole(guildId: string, userId: string, roleId: string)
    | DeleteGuildMemberRole(guildId: string, userId: string, roleId: string)
    | DeleteGuildRole(guildId: string, roleId: string)
    | UpdateGuildRole(guildId: string, roleId: string)
    | ListGuildRoles(guildId: string)
    | CreateGuildRole(guildId: string)
    | BulkUpdateGuildRoles(guildId: string)
  function RolesRoute(c: RolesCall): (r: Route)
    ensures RouteShape(r)
  {
    match c
    case AddGuildMemberRole(guildId, userId, roleId) =>
      Route("/guilds/" + guildId + "/members/" + userId + "/roles/" + roleId, PUT, Empty)
    case DeleteGuildMemberRole(guildId, userId, roleId) =>
      Route("/guilds/" + guildId + "/members/" + userId + "/roles/" + roleId, DELETE, Empty)
    case DeleteGuildRole(guildId, roleId) =>
      Route("/guilds/" + guildId + "/roles/" + roleId, DELETE, Empty)
    case UpdateGuildRole(guildId, roleId) =>
      Route("/guilds/" + guildId + "/roles/" + roleId, PATCH, Payload)
    case ListGuildRoles(guildId) =>
      Route("/guilds/" + guildId + "/roles", GET, Empty)
    case CreateGuildRole(guildId) =>
      Route("/guilds/" + guildId + "/roles", POST, Payload)
    case BulkUpdateGuildRoles(guildId) =>
      Route("/guilds/" + guildId + "/roles", PATCH, Payload)
  }

  datatype RoleConnectionsCall =
    | GetApplicationUser(applicationId: string)
    | UpdateApplicationUser(applicationId: string)
    | GetMetadata(applicationId: string)
    | UpdateMetadata(applicationId: string)
  function RoleConnectionsRoute(c: RoleConnectionsCall): (r: Route)
    ensures RouteShape(r)
  {
    match c
    case GetApplicationUser(applicationId) =>
      Route("/users/@me/applications/" + applicationId + "/role-connection", GET, Empty)
    case UpdateApplicationUser(applicationId) =>
      Route("/users/@me/applications/" + applicationId + "/role-connection", PUT, Payload)
    case GetMetadata(applicationId) =>
      Route("/applications/" + applicationId + "/role-connections/metadata", GET, Empty)
    case UpdateMetadata(applicationId) =>
      Route("/applications/" + applicationId + "/role-connections/metadata", PUT, Payload)
  }

  datatype ScheduledEventsCall =
    | ListUsers(guildId: string, guildScheduledEventId: string, withMember: Option<bool>, limit: Option<int>, before: Option<string>, after: Option<string>)
    | Get(guildId: string, guildScheduledEventId: string, withUserCount: Option<bool>)
    | Delete(guildId: string, guildScheduledEventId: string)
    | Update(guildId: string, guildScheduledEventId: string)
    | List(guildId: string, withUserCount: Option<bool>)
    | Create(guildId: string)
  function ScheduledEventsRoute(c: ScheduledEventsCall): (r: Route)
    ensures RouteShape(r)
  {
    match c
    case ListUsers(guildId, guildScheduledEventId, withMember, limit, before, after) =>
      Route("/guilds/" + guildId + "/scheduled-events/" + guildScheduledEventId + "/users" + Query([("with_member", OptBoolString(withMember)), ("limit", OptIntString(limit)), ("before", before), ("after", after)]), GET, Empty)
    case Get(guildId, guildScheduledEventId, withUserCount) =>
      Route("/guilds/" + guildId + "/scheduled-events/" + guildScheduledEventId + Query([("with_user_count", OptBoolString(withUserCount))]), GET, Empty)
    case Delete(guildId, guildScheduledEventId) =>
      Route("/guilds/" + guildId + "/scheduled-events/" + guildScheduledEventId, DELETE, Empty)
    case Update(guildId, guildScheduledEventId) =>
      Route("/guilds/" + guildId + "/scheduled-events/" + guildScheduledEventId, PATCH, Payload)
    case List(guildId, withUserCount) =>
      Route("/guilds/" + guildId + "/scheduled-events" + Query([("with_user_count", OptBoolString(withUserCount))]), GET, Empty)
    case Create(guildId) =>
      Route("/guilds/" + guildId + "/scheduled-events", POST, Payload)
  }

  datatype StagesCall =
    | Create
    | Get(channelId: string)
    | Delete(channelId: string)
    | Update(channelId: string)
  function StagesRoute(c: StagesCall): (r: Route)
    ensures RouteShape(r)
  {
    match c
    case Create =>
      Route("/stage-instances", POST, Payload)
    case Get(channelId) =>
      Route("/stage-instances/" + channelId, GET, Empty)
    case Delete(channelId) =>
      Route("/stage-instances/" + channelId, DELETE, Empty)
    case Update(channelId) =>
      Route("/stage-instances/" + channelId, PATCH, Payload)
  }

  datatype StickersCall =
    | Get(stickerId: string)
    | ListPacks
    | GetGuildSticker(guildId: string, stickerId: string)
    | DeleteGuildSticker(guildId: string, stickerId: string)
    | UpdateGuildSticker(guildId: string, stickerId: string)
    | ListGuildStickers(guildId: string)
    | CreateGuildSticker(guildId: string)
  function StickersRoute(c: StickersCall): (r: Route)
    ensures RouteShape(r)
  {
    match c
    case Get(stickerId) =>
      Route("/stickers/" + stickerId, GET, Empty)
    case ListPacks =>
      Route("/sticker-packs", GET, Empty)
    case GetGuildSticker(guildId, stickerId) =>
      Route("/guilds/" + guildId + "/stickers/" + stickerId, GET, Empty)
    case DeleteGuildSticker(guildId, stickerId) =>
      Route("/guilds/" + guildId + "/stickers/" + stickerId, DELETE, Empty)
    case UpdateGuildSticker(guildId, stickerId) =>
      Route("/guilds/" + guildId + "/stickers/" + stickerId, PATCH, Payload)
    case ListGuildStickers(guildId) =>
      Route("/guilds/" + guildId + "/stickers", GET, Empty)
    case CreateGuildSticker(guildId) =>
      Route("/guilds/" + guildId + "/stickers", POST, Payload)
  }

  datatype ThreadsCall =
    | ListMyPrivateArchivedThreads(channelId: string, before: Option<string>, limit: Option<int>)
    | ListPrivateArchivedThreads(channelId: string, before: Option<string>, limit: Option<int>)
    | ListPublicArchivedThreads(channelId: string, before: Option<string>, limit: Option<int>)
    | Join(channelId: string)
    | Leave(channelId: string)
    | CreateFromMessage(channelId: string, messageId: string)
    | GetActiveGuildThreads(guildId: string)
    | GetMember(channelId: string, userId: string, withMember: Option<bool>)
    | AddMember(channelId: string, userId: string)
    | DeleteMember(channelId: string, userId: string)
    | ListMembers(channelId: string, withMember: Option<bool>, limit: Option<int>, after: Option<string>)
    | Create(channelId: string)
  function ThreadsRoute(c: ThreadsCall): (r: Route)
    ensures RouteShape(r)
  {
    match c
    case ListMyPrivateArchivedThreads(channelId, before, limit) =>
      Route("/channels/" + channelId + "/users/@me/threads/archived/private" + Query([("before", before), ("limit", OptIntString(limit))]), GET, Empty)
    case ListPrivateArchivedThreads(channelId, before, limit) =>
      Route("/channels/" + channelId + "/threads/archived/private" + Query([("before", before), ("limit", OptIntString(limit))]), GET, Empty)
    case ListPublicArchivedThreads(channelId, before, limit) =>
      Route("/channels/" + channelId + "/threads/archived/public" + Query([("before", before), ("limit", OptIntString(limit))]), GET, Empty)
    case Join(channelId) =>
      Route("/channels/" + channelId + "/thread-members/@me", PUT, Empty)
    case Leave(channelId) =>
      Route("/channels/" + channelId + "/thread-members/@me", DELETE, Empty)
    case CreateFromMessage(channelId, messageId) =>
      Route("/channels/" + channelId + "/messages/" + messageId + "/threads", POST, Payload)
    case GetActiveGuildThreads(guildId) =>
      Route("/guilds/" + guildId + "/threads/active", GET, Empty)
    case GetMember(channelId, userId, withMember) =>
      Route("/channels/" + channelId + "/thread-members/" + userId + Query([("with_member", OptBoolString(withMember))]), GET, Empty)
    case AddMember(channelId, userId) =>
      Route("/channels/" + channelId + "/thread-members/" + userId, PUT, Empty)
    case DeleteMember(channelId, userId) =>
      Route("/channels/" + channelId + "/thread-members/" + userId, DELETE, Empty)
    case ListMembers(channelId, withMember, limit, after) =>
      Route("/channels/" + channelId + "/thread-members" + Query([("with_member", OptBoolString(withMember)), ("limit", OptIntString(limit)), ("after", after)]), GET, Empty)
    case Create(channelId) =>
      Route("/channels/" + channelId + "/threads", POST, Payload)
  }

  datatype UsersCall =
    | GetConnections
    | GetMe
    | UpdateMe
    | Get(userId: string)
  function UsersRoute(c: UsersCall): (r: Route)
    ensures RouteShape(r)
  {
    match c
    case GetConnections =>
      Route("/users/@me/connections", GET, Empty)
    case GetMe =>
      Route("/users/@me", GET, Empty)
    case UpdateMe =>
      Route("/users/@me", PATCH, Payload)
    case Get(userId) =>
      Route("/users/" + userId, GET, Empty)
  }

  datatype VoiceCall =
    | ListRegions
    | ListGuildVoiceRegions(guildId: string)
    | UpdateSelfVoiceState(guildId: string)
    | UpdateVoiceState(guildId: string, userId: string)
  function VoiceRoute(c: VoiceCall): (r: Route)
    ensures RouteShape(r)
  {
    match c
    case ListRegions =>
      Route("/voice/regions", GET, Empty)
    case ListGuildVoiceRegions(guildId) =>
      Route("/guilds/" + guildId + "/regions", GET, Empty)
    case UpdateSelfVoiceState(guildId) =>
      Route("/guilds/" + guildId + "/voice-states/@me", PATCH, Payload)
    case UpdateVoiceState(guildId, userId) =>
      Route("/guilds/" + guildId + "/voice-states/" + userId, PATCH, Payload)
  }

  datatype WebhooksCall =
    | GetOriginalMessage(webhookId: string, webhookToken: string, threadId: Option<string>)
    | DeleteOriginalMessage(webhookId: string, webhookToken: string, threadId: Option<string>)
    | UpdateOriginalMessage(webhookId: string, webhookToken: string, threadId: Option<string>)
    | ListChannelWebhooks(channelId: string)
    | Create(channelId: string)
    | GetMessage(webhookId: string, webhookToken: string, messageId: string, threadId: Option<string>)
    | DeleteMessage(webhookId: string, webhookToken: string, messageId: string, threadId: Option<string>)
    | UpdateMessage(webhookId: string, webhookToken: string, messageId: string, threadId: Option<string>)
    | ExecuteGithub(webhookId: string, webhookToken: string, wait: Option<bool>, threadId: Option<string>)
    | ExecuteSlack(webhookId: string, webhookToken: string, wait: Option<bool>, threadId: Option<string>)
    | GetGuildWebhooks(guildId: string)
    | GetByToken(webhookId: string, webhookToken: string)
    | DeleteByToken(webhookId: string, webhookToken: string)
    | UpdateByToken(webhookId: string, webhookToken: string)
    | Execute(webhookId: string, webhookToken: string, wait: Option<bool>, threadId: Option<string>)
    | Get(webhookId: string)
    | Delete(webhookId: string)
    | Update(webhookId: string)
  function WebhooksRoute(c: WebhooksCall): (r: Route)
    ensures RouteShape(r)
  {
    match c
    case GetOriginalMessage(webhookId, webhookToken, threadId) =>
      Route("/webhooks/" + webhookId + "/" + webhookToken + "/messages/@original" + Query([("thread_id", threadId)]), GET, Empty)
    case DeleteOriginalMessage(webhookId, webhookToken, threadId) =>
      Route("/webhooks/" + webhookId + "/" + webhookToken + "/messages/@original" + Query([("thread_id", threadId)]), DELETE, Empty)
    case UpdateOriginalMessage(webhookId, webhookToken, threadId) =>
      Route("/webhooks/" + webhookId + "/" + webhookToken + "/messages/@original" + Query([("thread_id", threadId)]), PATCH, Payload)
    case ListChannelWebhooks(channelId) =>
      Route("/channels/" + channelId + "/webhooks", GET, Empty)
    case Create(channelId) =>
      Route("/channels/" + channelId + "/webhooks", POST, Payload)
    case GetMessage(webhookId, webhookToken, messageId, threadId) =>
      Route("/webhooks/" + webhookId + "/" + webhookToken + "/messages/" + messageId + Query([("thread_id", threadId)]), GET, Empty)
    case DeleteMessage(webhookId, webhookToken, messageId, threadId) =>
      Route("/webhooks/" + webhookId + "/" + webhookToken + "/messages/" + messageId + Query([("thread_id", threadId)]), DELETE, Empty)
    case UpdateMessage(webhookId, webhookToken, messageId, threadId) =>
      Route("/webhooks/" + webhookId + "/" + webhookToken + "/messages/" + messageId + Query([("thread_id", threadId)]), PATCH, Payload)
    case ExecuteGithub(webhookId, webhookToken, wait, threadId) =>
      Route("/webhooks/" + webhookId + "/" + webhookToken + "/github" + Query([("wait", OptBoolString(wait)), ("thread_id", threadId)]), POST, Payload)
    case ExecuteSlack(webhookId, webhookToken, wait, threadId) =>
      Route("/webhooks/" + webhookId + "/" + webhookToken + "/slack" + Query([("wait", OptBoolString(wait)), ("thread_id", threadId)]), POST, Payload)
    case GetGuildWebhooks(guildId) =>
      Route("/guilds/" + guildId + "/webhooks", GET, Empty)
    case GetByToken(webhookId, webhookToken) =>
      Route("/webhooks/" + webhookId + "/" + webhookToken, GET, Empty)
    case DeleteByToken(webhookId, webhookToken) =>
      Route("/webhooks/" + webhookId + "/" + webhookToken, DELETE, Empty)
    case UpdateByToken(webhookId, webhookToken) =>
      Route("/webhooks/" + webhookId + "/" + webhookToken, PATCH, Payload)
    case Execute(webhookId, webhookToken, wait, threadId) =>
      Route("/webhooks/" + webhookId + "/" + webhookToken + Query([("wait", OptBoolString(wait)), ("thread_id", threadId)]), POST, Payload)
    case Get(webhookId) =>
      Route("/webhooks/" + webhookId, GET, Empty)
    case Delete(webhookId) =>
      Route("/webhooks/" + webhookId, DELETE, Empty)
    case Update(webhookId) =>
      Route("/webhooks/" + webhookId, PATCH, Payload)
  }

  /** `HttpApiCall`: the audit-log call, and one variant per call type. */
  datatype HttpApiCall =
    | AuditLog(guildId: string, userId: Option<string>, actionType: Option<int>,
               before: Option<string>, after: Option<string>, limit: Option<int>)
    | Applications(ApplicationsCall)
    | Channels(ChannelsCall)
    | Commands(CommandsCall)
    | Emoji(EmojiCall)
    | Gateway(GatewayCall)
    | Guilds(GuildsCall)
    | GuildTemplates(GuildTemplatesCall)
    | Interactions(InteractionsCall)
    | Invites(InvitesCall)
    | Members(MembersCall)
    | Messages(MessagesCall)
    | OAuth(OAuthCall)
    | Roles(RolesCall)
    | RoleConnections(RoleConnectionsCall)
    | ScheduledEvents(ScheduledEventsCall)
    | Stages(StagesCall)
    | Stickers(StickersCall)
    | Threads(ThreadsCall)
    | Users(UsersCall)
    | Voice(VoiceCall)
    | Webhooks(WebhooksCall)

  /** The route of every call. */
  function RouteOf(call: HttpApiCall): (r: Route)
    ensures RouteShape(r)
  {
    match call
    case AuditLog(guildId, userId, actionType, before, after, limit) =>
      Route("/guilds/" + guildId + "/audit-logs"
              + Query([("user_id", userId), ("action_type", OptIntString(actionType)),
                       ("before", before), ("after", after), ("limit", OptIntString(limit))]),
            GET, Empty)
    case Applications(c) => ApplicationsRoute(c)
    case Channels(c) => ChannelsRoute(c)
    case Commands(c) => CommandsRoute(c)
    case Emoji(c) => EmojiRoute(c)
    case Gateway(c) => GatewayRoute(c)
    case Guilds(c) => GuildsRoute(c)
    case GuildTemplates(c) => GuildTemplatesRoute(c)
    case Interactions(c) => InteractionsRoute(c)
    case Invites(c) => InvitesRoute(c)
    case Members(c) => MembersRoute(c)
    case Messages(c) => MessagesRoute(c)
    case OAuth(c) => OAuthRoute(c)
    case Roles(c) => RolesRoute(c)
    case RoleConnections(c) => RoleConnectionsRoute(c)
    case ScheduledEvents(c) => ScheduledEventsRoute(c)
    case Stages(c) => StagesRoute(c)
    case Stickers(c) => StickersRoute(c)
    case Threads(c) => ThreadsRoute(c)
    case Users(c) => UsersRoute(c)
    case Voice(c) => VoiceRoute(c)
    case Webhooks(c) => WebhooksRoute(c)
  }

  lemma UnderRoot(path: string)
    requires |path| > 0
    ensures (HTTP_URL + path)[..|HTTP_URL|] == HTTP_URL && (HTTP_URL + path)[|HTTP_URL|] == path[0]
  {
  }

  /** `to_request`: the route's path appended to `HTTP_URL`. */
  function ToRequest(call: HttpApiCall): (r: Request)
    ensures |r.url| > |HTTP_URL| && r.url[..|HTTP_URL|] == HTTP_URL && r.url[|HTTP_URL|] == '/'
    ensures r.verb.GET? || r.verb.DELETE? ==> r.body.Empty?
    ensures r.url[|HTTP_URL|..] == RouteOf(call).path
    ensures r.verb == RouteOf(call).verb && r.body == RouteOf(call).body
  {
    var route := RouteOf(call);
    UnderRoot(route.path);
    Request(HTTP_URL + route.path, route.verb, route.body)
  }

  // ----- what the table promises -----

  /** Pinning and unpinning address the same message path, with PUT and DELETE. */
  lemma PinAndUnpin(channelId: string, messageId: string)
    ensures ChannelsRoute(PinMessage(channelId, messageId))
      == Route("/channels/" + channelId + "/pins/" + messageId, PUT, Empty)
    ensures ChannelsRoute(UnpinMessage(channelId, messageId))
      == Route("/channels/" + channelId + "/pins/" + messageId, DELETE, Empty)
  {
  }

  /** Banning, unbanning and reading a ban share one path and differ in method only. */
  lemma BanRoutes(guildId: string, userId: string)
    ensures GuildsRoute(BanUser(guildId, userId))
      == Route("/guilds/" + guildId + "/bans/" + userId, PUT, Empty)
    ensures GuildsRoute(UnbanUser(guildId, userId))
      == Route("/guilds/" + guildId + "/bans/" + userId, DELETE, Empty)
    ensures GuildsRoute(GetUserBan(guildId, userId))
      == Route("/guilds/" + guildId + "/bans/" + userId, GET, Empty)
  {
  }

  /** The widget is read from `/widget` and its settings from `/widget.json`. */
  lemma WidgetRoutes(guildId: string, style: Option<string>)
    ensures GuildsRoute(GetWidget(guildId)) == Route("/guilds/" + guildId + "/widget", GET, Empty)
    ensures GuildsRoute(GetWidgetSettings(guildId))
      == Route("/guilds/" + guildId + "/widget.json", GET, Empty)
    ensures GuildsRoute(UpdateWidgetSettings(guildId))
      == Route("/guilds/" + guildId + "/widget", PATCH, Payload)
    ensures GuildsRoute(GetWidgetPng(guildId, style))
      == Route("/guilds/" + guildId + "/widget.png" + Query([("style", style)]), GET, Empty)
  {
  }

  /** The MFA level is set at `/mfa-level`. */
  lemma MfaLevelRoute(guildId: string)
    ensures GuildsRoute(SetMfaLevel(guildId)) == Route("/guilds/" + guildId + "/mfa-level", PATCH, Payload)
  {
  }

  /** The application calls live under `/oauth2/applications`, and the OAuth call for
      the bot's own application reads the same path. */
  lemma ApplicationRoutes(applicationId: string)
    ensures ApplicationsRoute(ApplicationsCall.GetMy) == Route("/oauth2/applications/@me", GET, Empty)
    ensures ApplicationsRoute(ApplicationsCall.UpdateMy) == Route("/oauth2/applications/@me", PATCH, Payload)
    ensures ApplicationsRoute(ApplicationsCall.Get(applicationId))
      == Route("/oauth2/applications/" + applicationId, GET, Empty)
    ensures OAuthRoute(GetApplications) == ApplicationsRoute(ApplicationsCall.GetMy)
    ensures OAuthRoute(GetAuthorization) == Route("/oauth2/@me", GET, Empty)
  {
  }

  /** An audit-log request with no filters has no query. */
  lemma AuditLogWithoutFilters(guildId: string)
    ensures ToRequest(AuditLog(guildId, None, None, None, None, None)).url
      == HTTP_URL + "/guilds/" + guildId + "/audit-logs"
  {
    QueryEmptyIff([("user_id", None), ("action_type", None), ("before", None), ("after", None), ("limit", None)]);
  }

  /** Executing a webhook passes `wait` before `thread_id`. */
  lemma ExecuteWebhookQuery(webhookId: string, token: string, threadId: string)
    ensures WebhooksRoute(Execute(webhookId, token, Some(true), Some(threadId))).path
      == "/webhooks/" + webhookId + "/" + token + "?wait=true&thread_id=" + threadId
  {
    QueryOfTwo("wait", "true", "thread_id", threadId);
  }

  /** Without `wait`, `thread_id` opens the query. */
  lemma ExecuteWebhookInThread(webhookId: string, token: string, threadId: string)
    ensures WebhooksRoute(Execute(webhookId, token, None, Some(threadId))).path
      == "/webhooks/" + webhookId + "/" + token + "?thread_id=" + threadId
  {
    QueryOfSecond("wait", "thread_id", threadId);
  }
}
