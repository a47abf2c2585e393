/** The remote platform the tool handlers act on, and the execution contract
    they share: resolve the target or throw a typed not-found error, check a
    permission or throw a permission error, only then issue the remote calls
    in order, and fold whatever was thrown into a failure envelope.

    The platform is a read-only snapshot of what the bot can see (`World`)
    and a log of the mutations it accepted (`Remote`). */
module Platform {
  import opened Wrappers
  import opened Errors
  import opened GuildValidation

  /** A JSON-like value: the payloads handed to the platform and the
      structured content handed back to the caller. A property whose value
      is `undefined` is absent from its object. */
  datatype Value =
    | Null
    | Bool(b: bool)
    | Num(n: int)
    | Str(s: string)
    | Arr(items: seq<Value>)
    | Obj(fields: map<string, Value>)

  type Fields = map<string, Value>

  /** `if (v !== undefined) o.key = v`. */
  function Put(o: Fields, key: string, v: Option<Value>): (r: Fields)
    ensures r.Keys == if v.Some? then o.Keys + {key} else o.Keys
    ensures v.Some? ==> r[key] == v.value
    ensures forall k | k in o && k != key :: r[k] == o[k]
  {
    if v.Some? then o[key := v.value] else o
  }

  /** Two further `Put`s under other keys leave a member as it was. */
  lemma PutPutKeeps(o: Fields, k1: string, v1: Option<Value>, k2: string, v2: Option<Value>, k: string)
    requires k != k1 && k != k2
    ensures k in Put(Put(o, k1, v1), k2, v2) <==> k in o
    ensures k in o ==> Put(Put(o, k1, v1), k2, v2)[k] == o[k]
  {
  }

  function StrOf(s: Option<string>): Option<Value> {
    if s.Some? then Some(Str(s.value)) else None
  }

  function BoolOf(b: Option<bool>): Option<Value> {
    if b.Some? then Some(Bool(b.value)) else None
  }

  function NumOf(n: Option<int>): Option<Value> {
    if n.Some? then Some(Num(n.value)) else None
  }

  function Strs(xs: seq<string>): (r: Value)
    ensures r.Arr? && |r.items| == |xs|
    ensures forall i | 0 <= i < |xs| :: r.items[i] == Str(xs[i])
  {
    Arr(seq(|xs|, i requires 0 <= i < |xs| => Str(xs[i])))
  }

  /** JavaScript truthiness of an optional string: defined and not "". */
  predicate Truthy(s: Option<string>) {
    s.Some? && s.value != []
  }

  /** The permission bits the handlers test. */
  datatype Perm =
    | ManageChannels | ManageMessages | BanMembers | ManageNicknames
    | CreatePublicThreads | ManageThreads | ViewChannel | SendMessages
    | SendMessagesInThreads | ReadMessageHistory | AddReactions | AttachFiles
    | EmbedLinks | ManageGuild | ViewAuditLog | ManageWebhooks
    | CreateInstantInvite | ManageGuildExpressions

  /** The name a permission error reports. */
  function PermName(p: Perm): string {
    match p
    case ManageChannels => "ManageChannels"
    case ManageMessages => "ManageMessages"
    case BanMembers => "BanMembers"
    case ManageNicknames => "ManageNicknames"
    case CreatePublicThreads => "CreatePublicThreads"
    case ManageThreads => "ManageThreads"
    case ViewChannel => "ViewChannel"
    case SendMessages => "SendMessages"
    case SendMessagesInThreads => "SendMessagesInThreads"
    case ReadMessageHistory => "ReadMessageHistory"
    case AddReactions => "AddReactions"
    case AttachFiles => "AttachFiles"
    case EmbedLinks => "EmbedLinks"
    case ManageGuild => "ManageGuild"
    case ViewAuditLog => "ViewAuditLog"
    case ManageWebhooks => "ManageWebhooks"
    case CreateInstantInvite => "CreateInstantInvite"
    case ManageGuildExpressions => "ManageGuildExpressions"
  }

  /** Discord's channel types. */
  datatype ChannelKind =
    | GuildText | DM | GuildVoice | GroupDM | GuildCategory | GuildAnnouncement
    | AnnouncementThread | PublicThread | PrivateThread | GuildStageVoice
    | GuildDirectory | GuildForum | GuildMedia

  /** `ChannelType[type]`, the name of a type. */
  function KindName(k: ChannelKind): string {
    match k
    case GuildText => "GuildText"
    case DM => "DM"
    case GuildVoice => "GuildVoice"
    case GroupDM => "GroupDM"
    case GuildCategory => "GuildCategory"
    case GuildAnnouncement => "GuildAnnouncement"
    case AnnouncementThread => "AnnouncementThread"
    case PublicThread => "PublicThread"
    case PrivateThread => "PrivateThread"
    case GuildStageVoice => "GuildStageVoice"
    case GuildDirectory => "GuildDirectory"
    case GuildForum => "GuildForum"
    case GuildMedia => "GuildMedia"
  }

  /** The numeric value of a type. */
  function KindCode(k: ChannelKind): int {
    match k
    case GuildText => 0
    case DM => 1
    case GuildVoice => 2
    case GroupDM => 3
    case GuildCategory => 4
    case GuildAnnouncement => 5
    case AnnouncementThread => 10
    case PublicThread => 11
    case PrivateThread => 12
    case GuildStageVoice => 13
    case GuildDirectory => 14
    case GuildForum => 15
    case GuildMedia => 16
  }

  predicate IsThread(k: ChannelKind) {
    k == AnnouncementThread || k == PublicThread || k == PrivateThread
  }

  /** Channels that carry a `threads` manager. */
  predicate HasThreadManager(k: ChannelKind) {
    k == GuildText || k == GuildAnnouncement || k == GuildForum || k == GuildMedia
  }

  /** Guild channels that carry `createWebhook` / `fetchWebhooks` and
      `createInvite`. */
  predicate HasWebhooks(k: ChannelKind) {
    k == GuildText || k == GuildAnnouncement || k == GuildVoice || k == GuildStageVoice
    || k == GuildForum || k == GuildMedia
  }

  predicate HasInvites(k: ChannelKind) {
    HasWebhooks(k)
  }

  datatype ChatMessage = ChatMessage(id: string, authorId: string, authorBot: bool, createdAt: int, content: string, embeds: seq<Value>)

  datatype ThreadInfo = ThreadInfo(id: string, name: string, ownerId: Option<string>, messageCount: Option<int>,
                                   memberCount: Option<int>, archived: Option<bool>, locked: Option<bool>)

  datatype Webhook = Webhook(id: string, name: string, channelId: string, url: string)

  /** A channel as `client.channels.fetch` resolves it. `textBased` is what
      `isTextBased()` answers; `botPerms` is what `permissionsFor(bot)`
      grants; `messages` are newest first, as `messages.fetch` returns them. */
  datatype Channel = Channel(
    id: string,
    name: string,
    kind: ChannelKind,
    guildId: Option<string>,
    textBased: bool,
    position: int,
    parentId: Option<string>,
    topic: Option<string>,
    nsfw: Option<bool>,
    botPerms: set<Perm>,
    messages: seq<ChatMessage>,
    activeThreads: seq<ThreadInfo>,
    archivedThreads: seq<ThreadInfo>)

  datatype BanEntry = BanEntry(userId: string, username: string, reason: Option<string>)

  /** An invite; `channelName` is its channel's name when the channel is
      known, `inviterUsername` its inviter's when known. */
  datatype Invite = Invite(code: string, url: string, channelId: Option<string>, channelName: Option<string>,
                           inviterId: Option<string>, inviterUsername: Option<string>,
                           uses: Option<int>, maxUses: Option<int>, expiresAt: Option<string>, temporary: Option<bool>)

  datatype AuditEntry = AuditEntry(id: string, action: int, executorId: Option<string>, targetId: Option<string>, reason: Option<string>)

  datatype Rule = Rule(name: string, enabled: bool, triggerType: int, eventType: int, triggerMetadata: Fields)

  /** An option stored on an application command. */
  datatype StoredOption = StoredOption(kind: int, name: string, description: string,
                                       required: Option<bool>, choices: Option<seq<Value>>)

  /** An application command as the platform stores it;
      `defaultMemberPermissions` is the string form of its permission bit
      field, if any. */
  datatype Command = Command(
    id: string,
    name: string,
    description: string,
    kind: int,
    options: seq<StoredOption>,
    defaultMemberPermissions: Option<string>,
    dmPermission: Option<bool>,
    nsfw: Option<bool>)

  datatype StickerUser = StickerUser(id: string, username: string)

  /** A guild sticker; `format` is its `StickerFormatType` code and
      `creator` the user who uploaded it, when the platform says. */
  datatype Sticker = Sticker(id: string, name: string, description: Option<string>, tags: Option<string>, format: int,
                             available: Option<bool>, creator: Option<StickerUser>)

  /** A guild: `botPerms` are the bot member's guild-wide permissions and
      `botTopRole` the position of its highest role; `members` maps a member
      id to the position of the member's highest role. */
  datatype Guild = Guild(
    name: string,
    botPerms: set<Perm>,
    botTopRole: int,
    members: map<string, int>,
    bans: seq<BanEntry>,
    listing: seq<Option<Channel>>,
    premiumTier: nat,
    features: set<string>,
    stickers: seq<Sticker>,
    rules: map<string, Rule>,
    commands: seq<Command>,
    webhooks: seq<Webhook>,
    invites: seq<Invite>,
    auditLog: seq<AuditEntry>)

  datatype RawWorld = World(
    connected: bool,
    botId: string,
    guilds: map<string, Guild>,
    channels: map<string, Channel>,
    globalCommands: seq<Command>,
    files: set<string>)

  /** Every channel that belongs to a guild names a guild the bot sees. */
  predicate WellFormed(w: RawWorld) {
    forall id | id in w.channels :: w.channels[id].guildId.Some? ==> w.channels[id].guildId.value in w.guilds
  }

  type World = w: RawWorld | WellFormed(w) witness World(false, "", map[], map[], [], {})

  /** The remote calls a handler can issue. */
  datatype Api =
    | ChannelsCreate | ChannelDelete | ChannelEdit | ThreadsCreate | ThreadSend | SetArchived | SetLocked
    | BulkDelete | SetNickname | ChannelSend | MessageDelete | MessageReact | MessagePin
    | MessageUnpin | MessageEdit | GuildEdit | InviteCreate | WebhookCreate
    | RulesCreate | RuleEdit | RuleDelete | CommandsCreate | CommandEdit | CommandDelete
    | CommandsSet | StickersCreate | StickerEdit | StickerDelete

  /** One remote call: what it does, the ids it targets, and its payload. */
  datatype Mutation = Mutation(api: Api, target: seq<string>, payload: Fields)

  /** What a handler decided once every lookup and check passed: the calls
      to issue, in order, and what to report when they all succeed. */
  datatype Step = Step(calls: seq<Mutation>, out: Fields, text: Option<string>)

  /** The platform: a snapshot it answers lookups from, and the log of the
      mutations it accepted. It accepts calls until `capacity` of them are
      logged, then rejects every further one with `rejection`. */
  class Remote {
    const world: World
    const capacity: Option<nat>
    const rejection: string
    var log: seq<Mutation>

    constructor (world: World, capacity: Option<nat>, rejection: string)
      ensures this.world == world && this.capacity == capacity && this.rejection == rejection
      ensures log == []
    {
      this.world := world;
      this.capacity := capacity;
      this.rejection := rejection;
      log := [];
    }

    predicate Accepts()
      reads this
    {
      capacity.None? || |log| < capacity.value
    }

    method Call(m: Mutation) returns (ok: bool)
      modifies this
      ensures ok == old(Accepts())
      ensures log == if ok then old(log) + [m] else old(log)
    {
      ok := Accepts();
      if ok {
        log := log + [m];
      }
    }
  }

  /** The part of `calls` a platform holding `logged` mutations accepts. */
  function Accepted(calls: seq<Mutation>, logged: nat, capacity: Option<nat>): (r: seq<Mutation>)
    ensures r <= calls
    ensures |r| == |calls| <==> calls == [] || capacity.None? || logged + |calls| <= capacity.value
  {
    if capacity.None? || logged + |calls| <= capacity.value then calls
    else if logged >= capacity.value then []
    else calls[..capacity.value - logged]
  }

  /** The handler's awaits, in order: the first rejected call throws and no
      later call is issued. */
  method Issue(remote: Remote, calls: seq<Mutation>) returns (ok: bool)
    modifies remote
    ensures remote.log == old(remote.log) + Accepted(calls, |old(remote.log)|, remote.capacity)
    ensures ok <==> |Accepted(calls, |old(remote.log)|, remote.capacity)| == |calls|
  {
    ghost var start := |remote.log|;
    for i := 0 to |calls|
      invariant remote.log == old(remote.log) + calls[..i]
      invariant i == 0 || remote.capacity.None? || start + i <= remote.capacity.value
    {
      var sent := remote.Call(calls[i]);
      if !sent {
        assert Accepted(calls, start, remote.capacity) == calls[..i];
        return false;
      }
      assert calls[..i + 1] == calls[..i] + [calls[i]];
    }
    assert calls[..|calls|] == calls;
    ok := true;
  }

  /** How a tool reports: the prefix of its failure text, and whether its
      failure envelope sets `isError`. */
  datatype Tool = Tool(failPrefix: string, flagsIsError: bool)

  /** The result of a handler: the text content, the structured content,
      and the `isError` flag. */
  datatype Envelope = Envelope(text: Option<string>, structured: Fields, isError: bool)

  /** The catch block: `{success: false, error: error.message}`. */
  function Failed(tool: Tool, f: Fault): (e: Envelope)
    ensures e.structured.Keys == {"success", "error"}
    ensures e.structured["success"] == Bool(false) && e.structured["error"] == Str(Message(f))
    ensures e.text == Some(tool.failPrefix + Message(f))
    ensures e.isError == tool.flagsIsError
  {
    Envelope(Some(tool.failPrefix + Message(f)), map["success" := Bool(false), "error" := Str(Message(f))], tool.flagsIsError)
  }

  function Succeeded(step: Step): (e: Envelope)
    ensures "success" in e.structured && e.structured["success"] == Bool(true) && !e.isError
  {
    Envelope(step.text, step.out["success" := Bool(true)], false)
  }

  /** What the handler returns, given its decision and whether the platform
      accepted every call. */
  function Respond(tool: Tool, plan: Result<Step, Fault>, allAccepted: bool, rejection: string): Envelope {
    if plan.Failure? then Failed(tool, plan.error)
    else if allAccepted then Succeeded(plan.value)
    else Failed(tool, Plain(rejection))
  }

  /** Runs a handler whose lookups and checks gave `plan`: a failed lookup or
      check issues no call at all; otherwise the calls are issued in order
      up to the first rejection. */
  method Handle(remote: Remote, tool: Tool, plan: Result<Step, Fault>) returns (env: Envelope)
    modifies remote
    ensures plan.Failure? ==> remote.log == old(remote.log) && env == Failed(tool, plan.error)
    ensures plan.Success? ==>
      var accepted := Accepted(plan.value.calls, |old(remote.log)|, remote.capacity);
      remote.log == old(remote.log) + accepted
      && env == Respond(tool, plan, |accepted| == |plan.value.calls|, remote.rejection)
  {
    if plan.Failure? {
      return Failed(tool, plan.error);
    }
    var ok := Issue(remote, plan.value.calls);
    env := Respond(tool, plan, ok, remote.rejection);
  }

  /** The failure envelope reports the message of what was thrown, and
      nothing else; a success reports `success: true`. */
  lemma EnvelopeReportsFault(tool: Tool, plan: Result<Step, Fault>, allAccepted: bool, rejection: string)
    ensures var e := Respond(tool, plan, allAccepted, rejection);
      && (e.structured["success"] == Bool(true) <==> plan.Success? && allAccepted)
      && (plan.Failure? ==> e.structured == map["success" := Bool(false), "error" := Str(Message(plan.error))]
                            && e.isError == tool.flagsIsError)
      && (plan.Success? && !allAccepted ==> e.structured["error"] == Str(rejection))
  {
  }

  /** `discordManager.getClient()`. */
  function Client(w: World): (r: Result<(), Fault>)
    ensures r.Success? <==> w.connected
    ensures r.Failure? ==> r.error == NotConnected
  {
    if w.connected then Success(()) else Failure(NotConnected)
  }

  function GuildFetch(w: World, guildId: string): Fetched<Guild> {
    Resolved(if guildId in w.guilds then Some(w.guilds[guildId]) else None)
  }

  /** `client.guilds.fetch(id).catch(() => null)` then a not-found throw, as
      in `validateGuildAccess`. */
  function FetchGuild(w: World, guildId: string): (r: Result<Guild, Fault>)
    ensures r.Success? <==> guildId in w.guilds
    ensures r.Success? ==> r.value == w.guilds[guildId]
    ensures r.Failure? ==> r.error == GuildNotFound(guildId)
  {
    ValidateGuildAccess(GuildFetch(w, guildId), guildId)
  }

  /** `botMember.permissions.has(p)`, else a permission error naming
      `resource`. */
  function GuildPerm(g: Guild, p: Perm, resource: string): (r: Result<(), Fault>)
    ensures r.Success? <==> p in g.botPerms
    ensures r.Failure? ==> r.error == PermissionDenied(PermName(p), resource)
  {
    if p in g.botPerms then Success(()) else Failure(PermissionDenied(PermName(p), resource))
  }

  /** `channel.permissionsFor(bot).has(p)`, else a permission error. */
  function ChannelPerm(c: Channel, p: Perm, resource: string): (r: Result<(), Fault>)
    ensures r.Success? <==> p in c.botPerms
    ensures r.Failure? ==> r.error == PermissionDenied(PermName(p), resource)
  {
    if p in c.botPerms then Success(()) else Failure(PermissionDenied(PermName(p), resource))
  }

  /** `channel.permissionsFor(bot)` is consulted only for guild channels. */
  function GuildChannelPerm(c: Channel, p: Perm, resource: string): (r: Result<(), Fault>)
    ensures r.Success? <==> c.guildId.None? || p in c.botPerms
    ensures r.Failure? ==> r.error == PermissionDenied(PermName(p), resource)
  {
    if c.guildId.None? then Success(()) else ChannelPerm(c, p, resource)
  }

  /** `client.channels.fetch(id).catch(() => null)` followed by
      `if (!channel || !channel.isTextBased()) throw ChannelNotFound`. */
  function FetchTextChannel(w: World, channelId: string): (r: Result<Channel, Fault>)
    ensures r.Success? <==> channelId in w.channels && w.channels[channelId].textBased
    ensures r.Success? ==> r.value == w.channels[channelId]
    ensures r.Failure? ==> r.error == ChannelNotFound(channelId)
  {
    if channelId in w.channels && w.channels[channelId].textBased then Success(w.channels[channelId])
    else Failure(ChannelNotFound(channelId))
  }

  /** The guild a guild channel belongs to. */
  function GuildOf(w: World, c: Channel): Guild
    requires c.guildId.Some? && c.guildId.value in w.guilds
  {
    w.guilds[c.guildId.value]
  }

  /** `channel.messages.fetch(id).catch(() => null)`: the first message with
      that id. */
  function FindMessage(messages: seq<ChatMessage>, id: string): (r: Option<ChatMessage>)
    ensures r.Some? ==> r.value in messages && r.value.id == id
    ensures r.None? ==> forall i | 0 <= i < |messages| :: messages[i].id != id
  {
    if messages == [] then None
    else if messages[0].id == id then Some(messages[0])
    else FindMessage(messages[1..], id)
  }

  function FetchMessage(c: Channel, messageId: string): (r: Result<ChatMessage, Fault>)
    ensures r.Failure? ==> r.error == MessageNotFound(messageId)
    ensures r.Success? <==> exists i | 0 <= i < |c.messages| :: c.messages[i].id == messageId
    ensures r.Success? ==> r.value in c.messages && r.value.id == messageId
  {
    var m := FindMessage(c.messages, messageId);
    if m.Some? then Success(m.value) else Failure(MessageNotFound(messageId))
  }

  /** `Array.prototype.filter`. */
  function Filter<T>(xs: seq<T>, p: T -> bool): (r: seq<T>)
    ensures |r| <= |xs|
    ensures forall x | x in r :: x in xs && p(x)
    decreases |xs|
  {
    if xs == [] then []
    else Filter(xs[..|xs| - 1], p) + (if p(xs[|xs| - 1]) then [xs[|xs| - 1]] else [])
  }

  /** Filtering keeps exactly the elements that pass, in their order:
      it distributes over concatenation. */
  lemma {:induction false} FilterConcat<T>(xs: seq<T>, ys: seq<T>, p: T -> bool)
    ensures Filter(xs + ys, p) == Filter(xs, p) + Filter(ys, p)
    decreases |ys|
  {
    if ys == [] {
      assert xs + ys == xs;
    } else {
      var n := |ys| - 1;
      var init, y := ys[..n], ys[n];
      var last := if p(y) then [y] else [];
      assert ys == init + [y];
      calc {
        Filter(xs + ys, p);
        { assert xs + ys == (xs + init) + [y]; }
        Filter((xs + init) + [y], p);
        { FilterSnoc(xs + init, y, p); }
        Filter(xs + init, p) + last;
        { FilterConcat(xs, init, p); }
        Filter(xs, p) + Filter(init, p) + last;
        { FilterSnoc(init, y, p); }
        Filter(xs, p) + Filter(ys, p);
      }
    }
  }

  /** Filtering one more element appends it when it passes. */
  lemma FilterSnoc<T>(xs: seq<T>, x: T, p: T -> bool)
    ensures Filter(xs + [x], p) == Filter(xs, p) + (if p(x) then [x] else [])
  {
    assert (xs + [x])[..|xs|] == xs;
  }

  /** Every element that passes is kept. */
  lemma {:induction false} FilterKeeps<T>(xs: seq<T>, p: T -> bool, x: T)
    requires x in xs && p(x)
    ensures x in Filter(xs, p)
    decreases |xs|
  {
    if xs[|xs| - 1] != x {
      assert xs == xs[..|xs| - 1] + [xs[|xs| - 1]];
      FilterKeeps(xs[..|xs| - 1], p, x);
    }
  }

  /** A filter that passes nothing keeps nothing. */
  lemma {:induction false} FilterNone<T>(xs: seq<T>, p: T -> bool)
    requires forall x | x in xs :: !p(x)
    ensures Filter(xs, p) == []
    decreases |xs|
  {
    if xs != [] {
      FilterNone(xs[..|xs| - 1], p);
    }
  }

  /** Filters whose tests agree on every element keep the same elements. */
  lemma {:induction false} FilterSame<T>(xs: seq<T>, p: T -> bool, q: T -> bool)
    requires forall i | 0 <= i < |xs| :: p(xs[i]) == q(xs[i])
    ensures Filter(xs, p) == Filter(xs, q)
    decreases |xs|
  {
    if xs != [] {
      var init := xs[..|xs| - 1];
      assert forall i | 0 <= i < |init| :: init[i] == xs[i];
      FilterSame(init, p, q);
    }
  }

  /** Two filter stages in a row keep what passes both. */
  lemma {:induction false} FilterFuse<T>(xs: seq<T>, p: T -> bool, q: T -> bool, pq: T -> bool)
    requires forall x :: pq(x) == (p(x) && q(x))
    ensures Filter(Filter(xs, p), q) == Filter(xs, pq)
    decreases |xs|
  {
    if xs != [] {
      var init := xs[..|xs| - 1];
      var last := xs[|xs| - 1];
      FilterFuse(init, p, q, pq);
      FilterConcat(Filter(init, p), if p(last) then [last] else [], q);
      if p(last) {
        assert Filter([last], q) == (if q(last) then [last] else []) by {
          assert [last][..0] == [];
        }
      }
    }
  }

  function Min(a: int, b: int): int {
    if a <= b then a else b
  }

  /** The first `limit` entries: `slice(0, limit)`, and what a
      `fetch({limit})` of a newest-first listing returns. */
  function Take<T>(xs: seq<T>, limit: nat): (r: seq<T>)
    ensures r <= xs && |r| == Min(limit, |xs|)
  {
    xs[..Min(limit, |xs|)]
  }
}
