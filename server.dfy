/** The server tools: settings, the audit log, webhooks and invites. */
module Server {
  import opened Wrappers
  import opened Text
  import opened Errors
  import opened Platform

  const ModifyServerTool := Tool("Failed to modify server: ", true)
  const AuditLogsTool := Tool("Failed to get audit logs: ", true)
  const ListWebhooksTool := Tool("Failed to list webhooks: ", true)
  const CreateWebhookTool := Tool("Failed to create webhook: ", true)
  const GetInvitesTool := Tool("Failed to get invites: ", true)
  const CreateInviteTool := Tool("Failed to create invite: ", true)

  /** A string that may be null. */
  function OrNull(s: Option<string>): (v: Value)
    ensures v == Null <==> s.None?
  {
    if s.Some? then Str(s.value) else Null
  }

  /** `modify_server`'s `updateOptions`: each argument that is not
      undefined, the empty string included. */
  function ServerEdit(name: Option<string>, description: Option<string>, reason: Option<string>): Fields {
    Put(Put(Put(map[], "name", StrOf(name)), "description", StrOf(description)), "reason", StrOf(reason))
  }

  /** `modify_server`: the guild, ManageGuild, then one `guild.edit`. The
      reported name is the one the edit sets, or the guild's own. */
  function ModifyServerPlan(w: World, guildId: string, name: Option<string>, description: Option<string>,
                            reason: Option<string>): (r: Result<Step, Fault>) {
    var _ :- Client(w);
    var g :- FetchGuild(w, guildId);
    var _ :- GuildPerm(g, ManageGuild, guildId);
    var newName := name.GetOr(g.name);
    Success(Step([Mutation(GuildEdit, [guildId], ServerEdit(name, description, reason))],
                 map["guild" := Obj(map["id" := Str(guildId), "name" := Str(newName)])],
                 Some("Server \"" + newName + "\" modified successfully")))
  }

  /** A guild the bot does not see is reported before the permission; the
      edit needs ManageGuild and sends exactly the arguments that are
      defined, with their values. */
  lemma ModifyServerGates(w: World, guildId: string, name: Option<string>, description: Option<string>, reason: Option<string>)
    ensures var r := ModifyServerPlan(w, guildId, name, description, reason);
      && (w.connected && guildId !in w.guilds ==> r == Failure(GuildNotFound(guildId)))
      && (w.connected && guildId in w.guilds && ManageGuild !in w.guilds[guildId].botPerms
          ==> r == Failure(PermissionDenied("ManageGuild", guildId)))
      && (r.Success? <==> w.connected && guildId in w.guilds && ManageGuild in w.guilds[guildId].botPerms)
      && (r.Success? ==>
            var p := r.value.calls[0].payload;
            && |r.value.calls| == 1 && r.value.calls[0].api == GuildEdit
            && ("name" in p <==> name.Some?) && ("description" in p <==> description.Some?)
            && ("reason" in p <==> reason.Some?) && p.Keys <= {"name", "description", "reason"}
            && (name.Some? ==> p["name"] == Str(name.value))
            && (description.Some? ==> p["description"] == Str(description.value))
            && (reason.Some? ==> p["reason"] == Str(reason.value)))
  {
    var r := ModifyServerPlan(w, guildId, name, description, reason);
    if r.Success? {
      assert r.value.calls[0].payload == ServerEdit(name, description, reason);
      ServerEditFields(name, description, reason);
    }
  }

  /** The edit's arguments are exactly the defined ones, with their values. */
  lemma ServerEditFields(name: Option<string>, description: Option<string>, reason: Option<string>)
    ensures var p := ServerEdit(name, description, reason);
      && ("name" in p <==> name.Some?) && ("description" in p <==> description.Some?)
      && ("reason" in p <==> reason.Some?) && p.Keys <= {"name", "description", "reason"}
      && (name.Some? ==> p["name"] == Str(name.value))
      && (description.Some? ==> p["description"] == Str(description.value))
      && (reason.Some? ==> p["reason"] == Str(reason.value))
  {
    var o := Put(map[], "name", StrOf(name));
    PutPutKeeps(o, "description", StrOf(description), "reason", StrOf(reason), "name");
  }

  /** `get_audit_logs`'s `actionType`. */
  datatype AuditAction =
    | All | MemberKick | MemberBanAdd | MemberBanRemove | MemberUpdate | MemberRoleUpdate
    | ChannelCreate | ChannelDelete | ChannelUpdate | RoleCreate | RoleDelete | RoleUpdate
    | MessageDelete | MessageBulkDelete

  /** The `AuditLogEvent` code each named action type stands for. */
  function ActionCode(a: AuditAction): int
    requires !a.All?
  {
    match a
    case MemberKick => 20
    case MemberBanAdd => 22
    case MemberBanRemove => 23
    case MemberUpdate => 24
    case MemberRoleUpdate => 25
    case ChannelCreate => 10
    case ChannelDelete => 12
    case ChannelUpdate => 11
    case RoleCreate => 30
    case RoleDelete => 32
    case RoleUpdate => 31
    case MessageDelete => 72
    case MessageBulkDelete => 73
  }

  /** No two action types select the same events. */
  lemma ActionCodesDistinct(a: AuditAction, b: AuditAction)
    requires !a.All? && !b.All?
    ensures ActionCode(a) == ActionCode(b) <==> a == b
  {
  }

  /** `fetchOptions`: the limit, the user when a non-empty one is given, the
      event type unless every type is asked for. */
  function AuditFetchOptions(limit: nat, userId: Option<string>, action: AuditAction): Fields {
    Put(Put(map["limit" := Num(limit)], "user", if Truthy(userId) then Some(Str(userId.value)) else None),
        "type", if action.All? then None else Some(Num(ActionCode(action))))
  }

  /** How the platform reads the fetch options: an entry is returned when
      its executor is the `user` and its event the `type`, where given. */
  predicate Selects(opts: Fields, e: AuditEntry) {
    && ("user" in opts ==> e.executorId.Some? && opts["user"] == Str(e.executorId.value))
    && ("type" in opts ==> opts["type"] == Num(e.action))
  }

  /** `guild.fetchAuditLogs(options)`, before the limit. */
  function Selected(log: seq<AuditEntry>, opts: Fields): (r: seq<AuditEntry>)
    ensures forall e | e in r :: e in log && Selects(opts, e)
  {
    Filter(log, (e: AuditEntry) => Selects(opts, e))
  }

  /** The entries the arguments ask for. */
  predicate AuditMatches(e: AuditEntry, userId: Option<string>, action: AuditAction) {
    && (Truthy(userId) ==> e.executorId == Some(userId.value))
    && (!action.All? ==> e.action == ActionCode(action))
  }

  /** The options select exactly the entries done by the non-empty user
      asked for and of the action type asked for. */
  lemma FetchOptionsSelect(limit: nat, userId: Option<string>, action: AuditAction, e: AuditEntry)
    ensures Selects(AuditFetchOptions(limit, userId, action), e) <==> AuditMatches(e, userId, action)
    ensures AuditFetchOptions(limit, userId, action)["limit"] == Num(limit)
  {
  }

  function AuditRow(e: AuditEntry): Value {
    Obj(map["id" := Str(e.id), "executorId" := OrNull(e.executorId), "targetId" := OrNull(e.targetId),
            "reason" := OrNull(e.reason)])
  }

  function AuditRows(es: seq<AuditEntry>): (r: seq<Value>)
    ensures |r| == |es| && forall i | 0 <= i < |es| :: r[i] == AuditRow(es[i])
  {
    seq(|es|, i requires 0 <= i < |es| => AuditRow(es[i]))
  }

  /** "Retrieved N audit log entry" or "... entries". */
  function AuditSummary(n: nat): string {
    "Retrieved " + NatToString(n) + " audit log entr" + (if n == 1 then "y" else "ies")
  }

  /** The summary is singular for exactly one entry. */
  lemma AuditSummaryNumber(n: nat)
    ensures n == 1 ==> AuditSummary(n) == "Retrieved 1 audit log entry"
    ensures n != 1 ==> AuditSummary(n)[|AuditSummary(n)| - 3..] == "ies"
  {
    if n == 1 {
      assert NatToString(1) == "1";
    }
  }

  /** `get_audit_logs`: the guild, ViewAuditLog, then the newest `limit`
      matching entries (50 by default). */
  function AuditLogsPlan(w: World, guildId: string, limit: Option<nat>, userId: Option<string>,
                         action: AuditAction): (r: Result<Step, Fault>) {
    var _ :- Client(w);
    var g :- FetchGuild(w, guildId);
    var _ :- GuildPerm(g, ViewAuditLog, guildId);
    var opts := AuditFetchOptions(limit.GetOr(50), userId, action);
    var entries := Take(Selected(g.auditLog, opts), limit.GetOr(50));
    Success(Step([], map["entries" := Arr(AuditRows(entries)), "totalCount" := Num(|entries|)],
                 Some(AuditSummary(|entries|))))
  }

  /** The audit log is read only with ViewAuditLog and changes nothing; it
      reports the first `limit` entries (50 by default) done by the
      asked-for user and of the asked-for type, in log order, and
      `totalCount` counts them. */
  lemma AuditLogsFilter(w: World, guildId: string, limit: Option<nat>, userId: Option<string>, action: AuditAction)
    ensures var r := AuditLogsPlan(w, guildId, limit, userId, action);
      && (r.Success? <==> w.connected && guildId in w.guilds && ViewAuditLog in w.guilds[guildId].botPerms)
      && (w.connected && guildId in w.guilds && ViewAuditLog !in w.guilds[guildId].botPerms
          ==> r == Failure(PermissionDenied("ViewAuditLog", guildId)))
      && (r.Success? ==>
            var rows := r.value.out["entries"].items;
            && r.value.calls == []
            && |rows| <= limit.GetOr(50)
            && r.value.out["totalCount"] == Num(|rows|)
            && (forall i | 0 <= i < |rows| :: RowOf(w.guilds[guildId].auditLog, rows[i], userId, action))
            && rows == AuditRows(Take(Matching(w.guilds[guildId].auditLog, userId, action), limit.GetOr(50))))
  {
    var r := AuditLogsPlan(w, guildId, limit, userId, action);
    if r.Success? {
      var g := w.guilds[guildId];
      var entries := Take(Selected(g.auditLog, AuditFetchOptions(limit.GetOr(50), userId, action)), limit.GetOr(50));
      var rows := r.value.out["entries"].items;
      assert rows == AuditRows(entries);
      SelectedMatching(g.auditLog, limit.GetOr(50), userId, action);
      EntriesMatch(g.auditLog, limit.GetOr(50), userId, action, entries);
      forall i | 0 <= i < |rows|
        ensures RowOf(g.auditLog, rows[i], userId, action)
      {
        assert entries[i] in g.auditLog && rows[i] == AuditRow(entries[i]);
      }
      assert |rows| <= limit.GetOr(50);
      assert r.value.out["totalCount"] == Num(|rows|);
    }
  }

  /** The entries of `log` the arguments ask for, in log order. */
  function Matching(log: seq<AuditEntry>, userId: Option<string>, action: AuditAction): seq<AuditEntry> {
    Filter(log, (e: AuditEntry) => AuditMatches(e, userId, action))
  }

  /** The platform's selection by the fetch options is exactly the entries
      the arguments ask for. */
  lemma SelectedMatching(log: seq<AuditEntry>, limit: nat, userId: Option<string>, action: AuditAction)
    ensures Selected(log, AuditFetchOptions(limit, userId, action)) == Matching(log, userId, action)
  {
    var opts := AuditFetchOptions(limit, userId, action);
    forall i | 0 <= i < |log|
      ensures Selects(opts, log[i]) == AuditMatches(log[i], userId, action)
    {
      FetchOptionsSelect(limit, userId, action, log[i]);
    }
    FilterSame(log, (e: AuditEntry) => Selects(opts, e), (e: AuditEntry) => AuditMatches(e, userId, action));
  }

  /** A row that reports an entry of `log` the arguments ask for. */
  predicate RowOf(log: seq<AuditEntry>, row: Value, userId: Option<string>, action: AuditAction) {
    exists e | e in log :: row == AuditRow(e) && AuditMatches(e, userId, action)
  }

  /** Every entry kept is one of the log's and one the arguments ask for. */
  lemma EntriesMatch(log: seq<AuditEntry>, limit: nat, userId: Option<string>, action: AuditAction, entries: seq<AuditEntry>)
    requires entries <= Selected(log, AuditFetchOptions(limit, userId, action))
    ensures forall i | 0 <= i < |entries| :: entries[i] in log && AuditMatches(entries[i], userId, action)
  {
    var opts := AuditFetchOptions(limit, userId, action);
    var matching := Selected(log, opts);
    forall i | 0 <= i < |entries|
      ensures entries[i] in log && AuditMatches(entries[i], userId, action)
    {
      assert entries[i] == matching[i];
      assert entries[i] in matching;
      FetchOptionsSelect(limit, userId, action, entries[i]);
    }
  }

  const NoWebhookChannel := "Invalid channel or channel doesn't support webhooks"
  const NoInviteChannel := "Invalid channel or channel doesn't support invites"

  /** What `guild.channels.fetch(id)` rejects with for a channel outside the
      guild. */
  const UnknownChannel := "Unknown Channel"

  /** `guild.channels.cache.get(id)?.name`: absent when the guild holds no
      such channel. */
  function ChannelNameIn(w: World, guildId: string, channelId: string): Option<Value> {
    if channelId in w.channels && w.channels[channelId].guildId == Some(guildId) then Some(Str(w.channels[channelId].name)) else None
  }

  function WebhookRow(w: World, guildId: string, h: Webhook): Value {
    Obj(Put(map["id" := Str(h.id), "name" := Str(h.name), "channelId" := Str(h.channelId), "url" := Str(h.url)],
            "channelName", ChannelNameIn(w, guildId, h.channelId)))
  }

  function WebhookRows(w: World, guildId: string, hs: seq<Webhook>): (r: seq<Value>)
    ensures |r| == |hs| && forall i | 0 <= i < |hs| :: r[i] == WebhookRow(w, guildId, hs[i])
  {
    seq(|hs|, i requires 0 <= i < |hs| => WebhookRow(w, guildId, hs[i]))
  }

  /** The webhooks of one channel: what `channel.fetchWebhooks()` returns. */
  function ChannelWebhooks(g: Guild, channelId: string): seq<Webhook> {
    Filter(g.webhooks, (h: Webhook) => h.channelId == channelId)
  }

  /** `list_webhooks`: the guild, ManageWebhooks, then the guild's webhooks,
      or one channel's when a non-empty channel id is given. */
  function ListWebhooksPlan(w: World, guildId: string, channelId: Option<string>): (r: Result<Step, Fault>) {
    var _ :- Client(w);
    var g :- FetchGuild(w, guildId);
    var _ :- GuildPerm(g, ManageWebhooks, guildId);
    var hooks :- if !Truthy(channelId) then Success(g.webhooks)
      else if channelId.value !in w.channels || w.channels[channelId.value].guildId != Some(guildId) then Failure(Plain(UnknownChannel))
      else if !HasWebhooks(w.channels[channelId.value].kind) then Failure(Plain(NoWebhookChannel))
      else Success(ChannelWebhooks(g, channelId.value));
    Success(Step([], map["webhooks" := Arr(WebhookRows(w, guildId, hooks)), "totalCount" := Num(|hooks|)],
                 Some("Found " + NatToString(|hooks|) + " webhook(s)")))
  }

  /** Webhooks are listed only with ManageWebhooks; a channel-scoped listing
      holds exactly the guild's webhooks of that channel, in order, and
      refuses a channel that cannot hold webhooks. */
  lemma ListWebhooksScope(w: World, guildId: string, channelId: Option<string>)
    ensures var r := ListWebhooksPlan(w, guildId, channelId);
      && (r.Success? ==> w.connected && guildId in w.guilds && ManageWebhooks in w.guilds[guildId].botPerms)
      && (r.Success? && !Truthy(channelId) ==>
            r.value.out["webhooks"] == Arr(WebhookRows(w, guildId, w.guilds[guildId].webhooks)))
      && (r.Success? && Truthy(channelId) ==>
            var rows := r.value.out["webhooks"].items;
            var hooks := ChannelWebhooks(w.guilds[guildId], channelId.value);
            && rows == WebhookRows(w, guildId, hooks)
            && (forall h | h in hooks :: h in w.guilds[guildId].webhooks && h.channelId == channelId.value)
            && (forall h | h in w.guilds[guildId].webhooks && h.channelId == channelId.value :: h in hooks))
      && (w.connected && guildId in w.guilds && ManageWebhooks in w.guilds[guildId].botPerms && Truthy(channelId)
          && channelId.value in w.channels && w.channels[channelId.value].guildId == Some(guildId)
          && !HasWebhooks(w.channels[channelId.value].kind)
          ==> r == Failure(Plain(NoWebhookChannel)))
  {
    if Truthy(channelId) && guildId in w.guilds {
      var g := w.guilds[guildId];
      forall h | h in g.webhooks && h.channelId == channelId.value
        ensures h in ChannelWebhooks(g, channelId.value)
      {
        FilterKeeps(g.webhooks, (h: Webhook) => h.channelId == channelId.value, h);
      }
    }
  }

  /** `botMember.permissions.has(p)` in the guild of a guild channel,
      reported against the guild's id; other channels skip the check. */
  function ChannelGuildPerm(w: World, channelId: string, p: Perm): (r: Result<(), Fault>)
    requires channelId in w.channels
    ensures var c := w.channels[channelId];
      && (r.Success? <==> c.guildId.None? || p in w.guilds[c.guildId.value].botPerms)
      && (r.Failure? ==> r.error == PermissionDenied(PermName(p), c.guildId.value))
  {
    var c := w.channels[channelId];
    if c.guildId.Some? then GuildPerm(GuildOf(w, c), p, c.guildId.value) else Success(())
  }

  /** `create_webhook`: a channel that supports webhooks, ManageWebhooks in
      its guild, then one `createWebhook`. */
  function CreateWebhookPlan(w: World, channelId: string, name: string, reason: Option<string>): (r: Result<Step, Fault>) {
    var _ :- Client(w);
    if channelId !in w.channels || !HasWebhooks(w.channels[channelId].kind) then Failure(Plain(NoWebhookChannel))
    else
      var _ :- ChannelGuildPerm(w, channelId, ManageWebhooks);
      Success(Step([Mutation(WebhookCreate, [channelId], Put(map["name" := Str(name)], "reason", StrOf(reason)))],
                   map[], Some("Webhook \"" + name + "\" created successfully")))
  }

  /** A webhook is created only on a channel kind that supports webhooks
      and, in a guild, only with ManageWebhooks there, reported against the
      guild's id. */
  lemma CreateWebhookGates(w: World, channelId: string, name: string, reason: Option<string>)
    ensures var r := CreateWebhookPlan(w, channelId, name, reason);
      && (w.connected && (channelId !in w.channels || !HasWebhooks(w.channels[channelId].kind))
          ==> r == Failure(Plain(NoWebhookChannel)))
      && (r.Success? <==> w.connected && channelId in w.channels && HasWebhooks(w.channels[channelId].kind)
                          && (w.channels[channelId].guildId.Some? ==>
                                ManageWebhooks in w.guilds[w.channels[channelId].guildId.value].botPerms))
      && (r.Failure? && r.error.PermissionDenied? ==>
            r.error == PermissionDenied("ManageWebhooks", w.channels[channelId].guildId.value))
      && (r.Success? ==> r.value.calls == [Mutation(WebhookCreate, [channelId], Put(map["name" := Str(name)], "reason", StrOf(reason)))])
  {
  }

  /** The invite as listed, with the listing's defaults. */
  /** The members of an invite's row that are always present. */
  const InviteMembers: set<string> :=
    {"code", "url", "channelId", "inviterId", "inviterUsername", "uses", "maxUses", "expiresAt", "temporary"}

  /** Those members, each with its `||` fallback. */
  function InviteBase(i: Invite): Fields {
    map[
      "code" := Str(i.code),
      "url" := Str(i.url),
      "channelId" := Str(if Truthy(i.channelId) then i.channelId.value else ""),
      "inviterId" := OrNull(i.inviterId),
      "inviterUsername" := if Truthy(i.inviterUsername) then Str(i.inviterUsername.value) else Null,
      "uses" := Num(if i.uses.Some? && i.uses.value != 0 then i.uses.value else 0),
      "maxUses" := Num(if i.maxUses.Some? && i.maxUses.value != 0 then i.maxUses.value else 0),
      "expiresAt" := if Truthy(i.expiresAt) then Str(i.expiresAt.value) else Null,
      "temporary" := Bool(i.temporary == Some(true))]
  }

  /** One row of `get_invites`; `channelName` is left out when the channel
      is unknown, as `invite.channel?.name` is then undefined. */
  function InviteRow(i: Invite): (r: Value)
    ensures r.Obj? && r.fields.Keys == InviteMembers + (if i.channelName.Some? then {"channelName"} else {})
  {
    InviteBaseKeys(i, InviteBase(i));
    Obj(Put(InviteBase(i), "channelName", StrOf(i.channelName)))
  }

  function InviteRows(invites: seq<Invite>): (r: seq<Value>)
    ensures |r| == |invites| && forall k | 0 <= k < |invites| :: r[k] == InviteRow(invites[k])
  {
    seq(|invites|, k requires 0 <= k < |invites| => InviteRow(invites[k]))
  }

  /** Each member of an invite's row: the invite's own value when it has
      one, and the `||` fallback (0, null, false or "") otherwise; the
      channel's name only when it is known. */
  lemma InviteRowFields(i: Invite)
    ensures InviteRow(i).fields["code"] == Str(i.code) && InviteRow(i).fields["url"] == Str(i.url)
    ensures InviteRow(i).fields["channelId"] == (if Truthy(i.channelId) then Str(i.channelId.value) else Str(""))
    ensures i.channelName.Some? ==> InviteRow(i).fields["channelName"] == Str(i.channelName.value)
    ensures InviteRow(i).fields["inviterId"] == (if i.inviterId.Some? then Str(i.inviterId.value) else Null)
    ensures InviteRow(i).fields["inviterUsername"] == (if Truthy(i.inviterUsername) then Str(i.inviterUsername.value) else Null)
    ensures InviteRow(i).fields["uses"] == Num(if i.uses.Some? then i.uses.value else 0)
    ensures InviteRow(i).fields["maxUses"] == Num(if i.maxUses.Some? then i.maxUses.value else 0)
    ensures InviteRow(i).fields["expiresAt"] == (if Truthy(i.expiresAt) then Str(i.expiresAt.value) else Null)
    ensures InviteRow(i).fields["temporary"] == Bool(i.temporary == Some(true))
  {
    var b := InviteBase(i);
    InviteIdFields(i, b);
    InviteCountFields(i, b);
  }

  lemma InviteBaseKeys(i: Invite, b: Fields)
    requires b == InviteBase(i)
    ensures b.Keys == InviteMembers
  {
  }

  lemma InviteIdFields(i: Invite, b: Fields)
    requires b == InviteBase(i)
    ensures b["code"] == Str(i.code) && b["url"] == Str(i.url)
    ensures b["channelId"] == (if Truthy(i.channelId) then Str(i.channelId.value) else Str(""))
    ensures b["inviterId"] == (if i.inviterId.Some? then Str(i.inviterId.value) else Null)
    ensures b["inviterUsername"] == (if Truthy(i.inviterUsername) then Str(i.inviterUsername.value) else Null)
  {
  }

  lemma InviteCountFields(i: Invite, b: Fields)
    requires b == InviteBase(i)
    ensures b["uses"] == Num(if i.uses.Some? then i.uses.value else 0)
    ensures b["maxUses"] == Num(if i.maxUses.Some? then i.maxUses.value else 0)
    ensures b["expiresAt"] == (if Truthy(i.expiresAt) then Str(i.expiresAt.value) else Null)
    ensures b["temporary"] == Bool(i.temporary == Some(true))
  {
  }

  /** `get_invites`: the guild, ManageGuild, then every invite. */
  function GetInvitesPlan(w: World, guildId: string): (r: Result<Step, Fault>) {
    var _ :- Client(w);
    var g :- FetchGuild(w, guildId);
    var _ :- GuildPerm(g, ManageGuild, guildId);
    Success(Step([], map["invites" := Arr(InviteRows(g.invites)), "totalCount" := Num(|g.invites|)],
                 Some("Found " + NatToString(|g.invites|) + " active invite(s)")))
  }

  /** Invites are listed only with ManageGuild, with no mutation, one row
      per invite in order (its members are given by InviteRowFields); a
      missing count reads 0, a missing expiry null, a missing flag false. */
  lemma GetInvitesDefaults(w: World, guildId: string)
    ensures var r := GetInvitesPlan(w, guildId);
      && (r.Success? <==> w.connected && guildId in w.guilds && ManageGuild in w.guilds[guildId].botPerms)
      && (r.Success? ==>
            var rows := r.value.out["invites"].items;
            var invites := w.guilds[guildId].invites;
            && r.value.calls == []
            && |rows| == |invites| && r.value.out["totalCount"] == Num(|invites|)
            && (forall k | 0 <= k < |rows| :: rows[k] == InviteRow(invites[k]))
            && forall k | 0 <= k < |rows| ::
                 && (invites[k].uses.None? ==> rows[k].fields["uses"] == Num(0))
                 && (invites[k].maxUses.None? ==> rows[k].fields["maxUses"] == Num(0))
                 && (invites[k].expiresAt.None? ==> rows[k].fields["expiresAt"] == Null)
                 && (invites[k].temporary.None? ==> rows[k].fields["temporary"] == Bool(false))
                 && (invites[k].channelId.None? ==> rows[k].fields["channelId"] == Str("")))
  {
    var r := GetInvitesPlan(w, guildId);
    if r.Success? {
      var rows := r.value.out["invites"].items;
      var invites := w.guilds[guildId].invites;
      assert rows == InviteRows(invites);
      forall k | 0 <= k < |rows|
        ensures rows[k] == InviteRow(invites[k])
      {
      }
      forall k | 0 <= k < |rows|
        ensures && (invites[k].uses.None? ==> rows[k].fields["uses"] == Num(0))
                && (invites[k].maxUses.None? ==> rows[k].fields["maxUses"] == Num(0))
                && (invites[k].expiresAt.None? ==> rows[k].fields["expiresAt"] == Null)
                && (invites[k].temporary.None? ==> rows[k].fields["temporary"] == Bool(false))
                && (invites[k].channelId.None? ==> rows[k].fields["channelId"] == Str(""))
      {
        InviteRowFields(invites[k]);
      }
    }
  }

  /** The options `createInvite` receives: `unique` is true unless given,
      the others only when given. */
  function InviteOptions(maxAge: Option<nat>, maxUses: Option<nat>, temporary: Option<bool>, unique: Option<bool>,
                         reason: Option<string>): Fields {
    var o := Put(Put(map["unique" := Bool(unique.GetOr(true))], "maxAge", NumOf(OptInt(maxAge))), "maxUses", NumOf(OptInt(maxUses)));
    Put(Put(o, "temporary", BoolOf(temporary)), "reason", StrOf(reason))
  }

  function OptInt(n: Option<nat>): Option<int> {
    if n.Some? then Some(n.value) else None
  }

  /** `create_invite`: a channel that supports invites,
      CreateInstantInvite in its guild, then one `createInvite`. */
  function CreateInvitePlan(w: World, channelId: string, maxAge: Option<nat>, maxUses: Option<nat>, temporary: Option<bool>,
                            unique: Option<bool>, reason: Option<string>): (r: Result<Step, Fault>) {
    var _ :- Client(w);
    if channelId !in w.channels || !HasInvites(w.channels[channelId].kind) then Failure(Plain(NoInviteChannel))
    else
      var _ :- ChannelGuildPerm(w, channelId, CreateInstantInvite);
      Success(Step([Mutation(InviteCreate, [channelId], InviteOptions(maxAge, maxUses, temporary, unique, reason))], map[], None))
  }

  /** An invite is created only on a channel kind that supports invites
      and, in a guild, only with CreateInstantInvite, by one call carrying
      the options (whose contents `InviteOptionsFields` states). */
  lemma CreateInviteDefaults(w: World, channelId: string, maxAge: Option<nat>, maxUses: Option<nat>, temporary: Option<bool>,
                             unique: Option<bool>, reason: Option<string>)
    ensures var r := CreateInvitePlan(w, channelId, maxAge, maxUses, temporary, unique, reason);
      && (w.connected && (channelId !in w.channels || !HasInvites(w.channels[channelId].kind))
          ==> r == Failure(Plain(NoInviteChannel)))
      && (r.Success? <==> w.connected && channelId in w.channels && HasInvites(w.channels[channelId].kind)
                          && (w.channels[channelId].guildId.Some? ==>
                                CreateInstantInvite in w.guilds[w.channels[channelId].guildId.value].botPerms))
      && (r.Success? ==>
            r.value.calls == [Mutation(InviteCreate, [channelId], InviteOptions(maxAge, maxUses, temporary, unique, reason))])
  {
  }

  /** The options carry `unique`, true unless given, and the limits
      exactly when they are given. */
  lemma InviteOptionsFields(maxAge: Option<nat>, maxUses: Option<nat>, temporary: Option<bool>, unique: Option<bool>,
                            reason: Option<string>)
    ensures var p := InviteOptions(maxAge, maxUses, temporary, unique, reason);
      && "unique" in p && p["unique"] == Bool(unique != Some(false))
      && ("maxAge" in p <==> maxAge.Some?) && ("maxUses" in p <==> maxUses.Some?)
      && (maxAge.Some? ==> p["maxAge"] == Num(maxAge.value))
      && (maxUses.Some? ==> p["maxUses"] == Num(maxUses.value))
  {
    var o := Put(Put(map["unique" := Bool(unique.GetOr(true))], "maxAge", NumOf(OptInt(maxAge))), "maxUses", NumOf(OptInt(maxUses)));
    assert o["unique"] == Bool(unique != Some(false));
    PutPutKeeps(o, "temporary", BoolOf(temporary), "reason", StrOf(reason), "unique");
    PutPutKeeps(o, "temporary", BoolOf(temporary), "reason", StrOf(reason), "maxAge");
    PutPutKeeps(o, "temporary", BoolOf(temporary), "reason", StrOf(reason), "maxUses");
  }
}
