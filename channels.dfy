/** The channel tools: the five `create_*` handlers and `delete_channel`,
    `modify_channel`, threads (create, archive, find), `list_channels` and
    `get_channel_details`. */
module Channels {
  import opened Wrappers
  import opened Text
  import opened Errors
  import opened Platform

  const CreateChannelTool := Tool("Failed to create channel: ", true)
  const CreateVoiceTool := Tool("Failed to create voice channel: ", true)
  const CreateCategoryTool := Tool("Failed to create category: ", true)
  const CreateForumTool := Tool("Failed to create forum: ", true)
  const CreateStageTool := Tool("Failed to create stage channel: ", true)
  const DeleteChannelTool := Tool("Failed to delete channel: ", true)
  const ModifyChannelTool := Tool("Failed to modify channel: ", true)
  const CreateThreadTool := Tool("Failed to create thread: ", true)
  const ArchiveThreadTool := Tool("Failed to archive thread: ", true)
  const ListChannelsTool := Tool("Failed to list channels: ", true)
  const FindThreadsTool := Tool("Failed to find threads: ", true)
  const ChannelDetailsTool := Tool("Failed to get channel details: ", true)

  /** `parent: parent || undefined`. */
  function ParentOf(parent: Option<string>): Option<Value> {
    if Truthy(parent) then Some(Str(parent.value)) else None
  }

  /** The options of `create_text_channel`; `nsfw` defaults to false. */
  function TextChannelPayload(name: string, topic: Option<string>, parent: Option<string>, nsfw: Option<bool>): Fields {
    var o := map["name" := Str(name), "type" := Num(KindCode(GuildText)), "nsfw" := Bool(nsfw.GetOr(false))];
    Put(Put(o, "topic", StrOf(topic)), "parent", ParentOf(parent))
  }

  function VoiceChannelPayload(name: string, parent: Option<string>, userLimit: Option<int>, bitrate: Option<int>): Fields {
    var o := map["name" := Str(name), "type" := Num(KindCode(GuildVoice))];
    Put(Put(Put(o, "parent", ParentOf(parent)), "userLimit", NumOf(userLimit)), "bitrate", NumOf(bitrate))
  }

  function CategoryPayload(name: string): Fields {
    map["name" := Str(name), "type" := Num(KindCode(GuildCategory))]
  }

  /** `tags ? tags.map((tag) => ({name: tag})) : undefined`: an empty list of
      tags is still sent. */
  function TagObjects(tags: seq<string>): (r: seq<Value>)
    ensures |r| == |tags| && forall i | 0 <= i < |tags| :: r[i] == Obj(map["name" := Str(tags[i])])
  {
    seq(|tags|, i requires 0 <= i < |tags| => Obj(map["name" := Str(tags[i])]))
  }

  function ForumPayload(name: string, topic: Option<string>, parent: Option<string>, tags: Option<seq<string>>): Fields {
    var o := map["name" := Str(name), "type" := Num(KindCode(GuildForum))];
    var tagValue := if tags.Some? then Some(Arr(TagObjects(tags.value))) else None;
    Put(Put(Put(o, "topic", StrOf(topic)), "parent", ParentOf(parent)), "availableTags", tagValue)
  }

  function StagePayload(name: string, topic: Option<string>, parent: Option<string>): Fields {
    var o := map["name" := Str(name), "type" := Num(KindCode(GuildStageVoice))];
    Put(Put(o, "topic", StrOf(topic)), "parent", ParentOf(parent))
  }

  /** Each create payload names its channel type and holds exactly the
      inputs that were given; an empty parent is left out, and `nsfw` is
      always sent for text channels. */
  lemma TextChannelPayloadFields(name: string, topic: Option<string>, parent: Option<string>, nsfw: Option<bool>)
    ensures var p := TextChannelPayload(name, topic, parent, nsfw);
      && p.Keys == {"name", "type", "nsfw"} + (if topic.Some? then {"topic"} else {}) + (if Truthy(parent) then {"parent"} else {})
      && p["type"] == Num(0) && p["nsfw"] == Bool(nsfw == Some(true))
      && (Truthy(parent) ==> p["parent"] == Str(parent.value))
  {
  }

  lemma VoiceChannelPayloadFields(name: string, parent: Option<string>, userLimit: Option<int>, bitrate: Option<int>)
    ensures var p := VoiceChannelPayload(name, parent, userLimit, bitrate);
      && p.Keys == {"name", "type"} + (if Truthy(parent) then {"parent"} else {})
                   + (if userLimit.Some? then {"userLimit"} else {}) + (if bitrate.Some? then {"bitrate"} else {})
      && p["type"] == Num(2)
  {
    var o := map["name" := Str(name), "type" := Num(KindCode(GuildVoice))];
    var ul, br := NumOf(userLimit), NumOf(bitrate);
    VoiceKeys(o, ParentOf(parent), ul, br, VoiceChannelPayload(name, parent, userLimit, bitrate));
    PutPutKeeps(Put(o, "parent", ParentOf(parent)), "userLimit", ul, "bitrate", br, "type");
  }

  lemma VoiceKeys(o: Fields, pa: Option<Value>, ul: Option<Value>, br: Option<Value>, p: Fields)
    requires o.Keys == {"name", "type"}
    requires p == Put(Put(Put(o, "parent", pa), "userLimit", ul), "bitrate", br)
    ensures p.Keys == {"name", "type"} + (if pa.Some? then {"parent"} else {}) + (if ul.Some? then {"userLimit"} else {})
                      + (if br.Some? then {"bitrate"} else {})
  {
  }

  lemma CategoryPayloadFields(name: string)
    ensures CategoryPayload(name).Keys == {"name", "type"} && CategoryPayload(name)["type"] == Num(4)
  {
  }

  lemma ForumPayloadFields(name: string, topic: Option<string>, parent: Option<string>, tags: Option<seq<string>>)
    ensures var p := ForumPayload(name, topic, parent, tags);
      && p.Keys == {"name", "type"} + (if topic.Some? then {"topic"} else {}) + (if Truthy(parent) then {"parent"} else {})
                   + (if tags.Some? then {"availableTags"} else {})
      && p["type"] == Num(15)
      && (tags.Some? ==> |p["availableTags"].items| == |tags.value|)
  {
    var o := map["name" := Str(name), "type" := Num(KindCode(GuildForum))];
    var tagValue := if tags.Some? then Some(Arr(TagObjects(tags.value))) else None;
    var o1 := Put(o, "topic", StrOf(topic));
    ForumKeys(o, StrOf(topic), ParentOf(parent), tagValue, ForumPayload(name, topic, parent, tags));
    PutPutKeeps(o1, "parent", ParentOf(parent), "availableTags", tagValue, "type");
  }

  lemma ForumKeys(o: Fields, t: Option<Value>, pa: Option<Value>, tv: Option<Value>, p: Fields)
    requires o.Keys == {"name", "type"}
    requires p == Put(Put(Put(o, "topic", t), "parent", pa), "availableTags", tv)
    ensures p.Keys == {"name", "type"} + (if t.Some? then {"topic"} else {}) + (if pa.Some? then {"parent"} else {})
                      + (if tv.Some? then {"availableTags"} else {})
  {
  }

  lemma StagePayloadFields(name: string, topic: Option<string>, parent: Option<string>)
    ensures var p := StagePayload(name, topic, parent);
      && p.Keys == {"name", "type"} + (if topic.Some? then {"topic"} else {}) + (if Truthy(parent) then {"parent"} else {})
      && p["type"] == Num(13)
  {
  }

  /** Every `create_*` handler: the guild, then ManageChannels in it, then
      `guild.channels.create(payload)`. */
  function CreateChannelPlan(w: World, guildId: string, payload: Fields): (r: Result<Step, Fault>) {
    var _ :- Client(w);
    var g :- FetchGuild(w, guildId);
    var _ :- GuildPerm(g, ManageChannels, guildId);
    Success(Step([Mutation(ChannelsCreate, [guildId], payload)], map[], None))
  }

  /** A missing guild is reported before any permission is looked at; a
      missing ManageChannels before anything is created; and when both hold,
      the one call is the creation of the given payload in that guild. */
  lemma CreateChannelGates(w: World, guildId: string, payload: Fields)
    ensures var r := CreateChannelPlan(w, guildId, payload);
      && (w.connected && guildId !in w.guilds ==> r == Failure(GuildNotFound(guildId)))
      && (w.connected && guildId in w.guilds && ManageChannels !in w.guilds[guildId].botPerms
          ==> r == Failure(PermissionDenied("ManageChannels", guildId)))
      && (r.Success? <==> w.connected && guildId in w.guilds && ManageChannels in w.guilds[guildId].botPerms)
      && (r.Success? ==> r.value.calls == [Mutation(ChannelsCreate, [guildId], payload)])
  {
  }

  /** `delete_channel`: any channel; in a guild, ManageChannels there. */
  function DeleteChannelPlan(w: World, channelId: string, reason: Option<string>): (r: Result<Step, Fault>) {
    var _ :- Client(w);
    if channelId !in w.channels then Failure(ChannelNotFound(channelId))
    else
      var c := w.channels[channelId];
      var _ :- if c.guildId.Some? then GuildPerm(GuildOf(w, c), ManageChannels, c.guildId.value) else Success(());
      Success(Step([Mutation(ChannelDelete, [channelId], Put(map[], "reason", StrOf(reason)))],
                   map["deletedChannelId" := Str(channelId)],
                   Some("Channel " + channelId + " deleted successfully")))
  }

  /** A guild channel is deleted only when the bot holds ManageChannels in
      its guild, and the refusal names the guild. */
  lemma DeleteChannelGate(w: World, channelId: string, reason: Option<string>)
    requires w.connected && channelId in w.channels && w.channels[channelId].guildId.Some?
    ensures var c := w.channels[channelId];
      var r := DeleteChannelPlan(w, channelId, reason);
      && (r.Success? <==> ManageChannels in w.guilds[c.guildId.value].botPerms)
      && (r.Failure? ==> r.error == PermissionDenied("ManageChannels", c.guildId.value))
      && (r.Success? ==> |r.value.calls| == 1 && r.value.calls[0].api == ChannelDelete)
  {
  }

  /** `modify_channel`'s `updateOptions`, field by field. */
  function ModifyChannelOptions(name: Option<string>, topic: Option<string>, nsfw: Option<bool>,
                                slowmode: Option<int>, reason: Option<string>): Fields {
    var o := Put(map[], "name", StrOf(name));
    var o := Put(o, "topic", StrOf(topic));
    var o := Put(o, "nsfw", BoolOf(nsfw));
    var o := Put(o, "rateLimitPerUser", NumOf(slowmode));
    Put(o, "reason", StrOf(reason))
  }

  /** The options hold exactly the defined inputs, each with its value, with
      `slowmode` under the name `rateLimitPerUser`; an empty string or a
      zero is still defined. */
  lemma ModifyChannelOptionsExact(name: Option<string>, topic: Option<string>, nsfw: Option<bool>,
                                  slowmode: Option<int>, reason: Option<string>)
    ensures var o := ModifyChannelOptions(name, topic, nsfw, slowmode, reason);
      && o.Keys == (if name.Some? then {"name"} else {}) + (if topic.Some? then {"topic"} else {})
                   + (if nsfw.Some? then {"nsfw"} else {}) + (if slowmode.Some? then {"rateLimitPerUser"} else {})
                   + (if reason.Some? then {"reason"} else {})
      && (name.Some? ==> o["name"] == Str(name.value))
      && (topic.Some? ==> o["topic"] == Str(topic.value))
      && (nsfw.Some? ==> o["nsfw"] == Bool(nsfw.value))
      && (slowmode.Some? ==> o["rateLimitPerUser"] == Num(slowmode.value))
      && (reason.Some? ==> o["reason"] == Str(reason.value))
      && "slowmode" !in o
  {
    var o1 := Put(map[], "name", StrOf(name));
    var o3 := Put(Put(o1, "topic", StrOf(topic)), "nsfw", BoolOf(nsfw));
    var o := ModifyChannelOptions(name, topic, nsfw, slowmode, reason);
    OptionsKeys(name, topic, nsfw, slowmode, reason, o1, o3, o);
    OptionsValues(name, topic, nsfw, slowmode, reason, o1, o3, o);
    NoSlowmodeKey(name, topic, nsfw, slowmode, reason, o1, o3, o);
  }

  lemma OptionsValues(name: Option<string>, topic: Option<string>, nsfw: Option<bool>, slowmode: Option<int>,
                      reason: Option<string>, o1: Fields, o3: Fields, o: Fields)
    requires o1 == Put(map[], "name", StrOf(name))
    requires o3 == Put(Put(o1, "topic", StrOf(topic)), "nsfw", BoolOf(nsfw))
    requires o == Put(Put(o3, "rateLimitPerUser", NumOf(slowmode)), "reason", StrOf(reason))
    ensures name.Some? ==> o["name"] == Str(name.value)
    ensures topic.Some? ==> o["topic"] == Str(topic.value)
    ensures nsfw.Some? ==> o["nsfw"] == Bool(nsfw.value)
    ensures slowmode.Some? ==> o["rateLimitPerUser"] == Num(slowmode.value)
    ensures reason.Some? ==> o["reason"] == Str(reason.value)
  {
    PutPutKeeps(o1, "topic", StrOf(topic), "nsfw", BoolOf(nsfw), "name");
    PutPutKeeps(o3, "rateLimitPerUser", NumOf(slowmode), "reason", StrOf(reason), "name");
    PutPutKeeps(o3, "rateLimitPerUser", NumOf(slowmode), "reason", StrOf(reason), "topic");
    PutPutKeeps(o3, "rateLimitPerUser", NumOf(slowmode), "reason", StrOf(reason), "nsfw");
  }

  lemma OptionsKeys(name: Option<string>, topic: Option<string>, nsfw: Option<bool>, slowmode: Option<int>,
                    reason: Option<string>, o1: Fields, o3: Fields, o: Fields)
    requires o1 == Put(map[], "name", StrOf(name))
    requires o3 == Put(Put(o1, "topic", StrOf(topic)), "nsfw", BoolOf(nsfw))
    requires o == Put(Put(o3, "rateLimitPerUser", NumOf(slowmode)), "reason", StrOf(reason))
    ensures o.Keys == (if name.Some? then {"name"} else {}) + (if topic.Some? then {"topic"} else {})
                   + (if nsfw.Some? then {"nsfw"} else {}) + (if slowmode.Some? then {"rateLimitPerUser"} else {})
                   + (if reason.Some? then {"reason"} else {})
  {
  }

  lemma NoSlowmodeKey(name: Option<string>, topic: Option<string>, nsfw: Option<bool>, slowmode: Option<int>,
                      reason: Option<string>, o1: Fields, o3: Fields, o: Fields)
    requires o1 == Put(map[], "name", StrOf(name))
    requires o3 == Put(Put(o1, "topic", StrOf(topic)), "nsfw", BoolOf(nsfw))
    requires o == Put(Put(o3, "rateLimitPerUser", NumOf(slowmode)), "reason", StrOf(reason))
    ensures "slowmode" !in o
  {
    PutPutKeeps(o1, "topic", StrOf(topic), "nsfw", BoolOf(nsfw), "slowmode");
    PutPutKeeps(o3, "rateLimitPerUser", NumOf(slowmode), "reason", StrOf(reason), "slowmode");
  }

  const ServerChannelsOnly := "This tool only works with server channels"

  function ModifyChannelPlan(w: World, channelId: string, name: Option<string>, topic: Option<string>, nsfw: Option<bool>,
                             slowmode: Option<int>, reason: Option<string>): (r: Result<Step, Fault>) {
    var _ :- Client(w);
    if channelId !in w.channels then Failure(ChannelNotFound(channelId))
    else
      var c := w.channels[channelId];
      if c.guildId.None? then Failure(Plain(ServerChannelsOnly))
      else
        var _ :- GuildPerm(GuildOf(w, c), ManageChannels, c.guildId.value);
        Success(Step([Mutation(ChannelEdit, [channelId], ModifyChannelOptions(name, topic, nsfw, slowmode, reason))], map[], None))
  }

  /** Only guild channels are edited, only with ManageChannels in their
      guild, and the edit carries the built options. */
  lemma ModifyChannelGates(w: World, channelId: string, name: Option<string>, topic: Option<string>, nsfw: Option<bool>,
                           slowmode: Option<int>, reason: Option<string>)
    ensures var r := ModifyChannelPlan(w, channelId, name, topic, nsfw, slowmode, reason);
      && (w.connected && channelId in w.channels && w.channels[channelId].guildId.None? ==> r == Failure(Plain(ServerChannelsOnly)))
      && (r.Success? ==>
            var c := w.channels[channelId];
            && c.guildId.Some? && ManageChannels in w.guilds[c.guildId.value].botPerms
            && r.value.calls == [Mutation(ChannelEdit, [channelId], ModifyChannelOptions(name, topic, nsfw, slowmode, reason))])
  {
  }

  const NoThreads := "This channel does not support threads"
  const ThreadReason := "Thread created via MCP"

  /** `create_thread`: a text channel, CreatePublicThreads in a guild, a
      channel with threads; then the thread, and its first message when a
      non-empty one is given. `autoArchiveDuration` is one of 60, 1440, 4320
      and 10080 when present. */
  function CreateThreadPlan(w: World, channelId: string, name: string, message: Option<string>,
                            autoArchiveDuration: Option<nat>): (r: Result<Step, Fault>) {
    var _ :- Client(w);
    var c :- FetchTextChannel(w, channelId);
    var _ :- GuildChannelPerm(c, CreatePublicThreads, channelId);
    if !HasThreadManager(c.kind) then Failure(Plain(NoThreads))
    else
      var create := Mutation(ThreadsCreate, [channelId], map["name" := Str(name), "autoArchiveDuration" := Num(autoArchiveDuration.GetOr(60)),
                                                              "reason" := Str(ThreadReason)]);
      var first := if Truthy(message) then [Mutation(ThreadSend, [channelId], map["content" := Str(message.value)])] else [];
      Success(Step([create] + first, map[], None))
  }

  /** The thread is created first, with a one-hour archive delay unless
      another is asked for; a message follows only when one is given, and
      it goes to the new thread after its creation. */
  lemma CreateThreadDefaults(w: World, channelId: string, name: string, message: Option<string>, autoArchiveDuration: Option<nat>)
    ensures var r := CreateThreadPlan(w, channelId, name, message, autoArchiveDuration);
      && (r.Success? ==>
            && |r.value.calls| == (if Truthy(message) then 2 else 1)
            && r.value.calls[0].api == ThreadsCreate
            && r.value.calls[0].payload["autoArchiveDuration"] == Num(if autoArchiveDuration.Some? then autoArchiveDuration.value else 60)
            && (Truthy(message) ==> r.value.calls[1] == Mutation(ThreadSend, [channelId], map["content" := Str(message.value)])))
      && (w.connected && channelId in w.channels && w.channels[channelId].textBased
          && (w.channels[channelId].guildId.None? || CreatePublicThreads in w.channels[channelId].botPerms)
          && !HasThreadManager(w.channels[channelId].kind)
          ==> r == Failure(Plain(NoThreads)))
  {
  }

  function NotAThread(threadId: string): string {
    "Thread " + threadId + " not found or is not a thread"
  }

  /** `archive_thread`: a thread; in a guild, ManageThreads there; then
      archive, and lock when `locked` (true by default). */
  function ArchiveThreadPlan(w: World, threadId: string, locked: Option<bool>): (r: Result<Step, Fault>) {
    var _ :- Client(w);
    if threadId !in w.channels || !IsThread(w.channels[threadId].kind) then Failure(Plain(NotAThread(threadId)))
    else
      var t := w.channels[threadId];
      var _ :- if t.guildId.Some? then GuildPerm(GuildOf(w, t), ManageThreads, t.guildId.value) else Success(());
      var lock := locked.GetOr(true);
      var archive := Mutation(SetArchived, [threadId], map["archived" := Bool(true)]);
      Success(Step([archive] + (if lock then [Mutation(SetLocked, [threadId], map["locked" := Bool(true)])] else []),
                   map["threadId" := Str(threadId)],
                   Some("Thread archived successfully" + (if lock then " and locked" else ""))))
  }

  /** A thread is always archived first, and then locked exactly when
      `locked` is not false. */
  lemma ArchiveThenLock(w: World, threadId: string, locked: Option<bool>)
    ensures var r := ArchiveThreadPlan(w, threadId, locked);
      && (r.Success? ==>
            && r.value.calls[0] == Mutation(SetArchived, [threadId], map["archived" := Bool(true)])
            && (|r.value.calls| == 2 <==> locked != Some(false))
            && |r.value.calls| <= 2
            && (|r.value.calls| == 2 ==> r.value.calls[1].api == SetLocked))
      && (w.connected && (threadId !in w.channels || !IsThread(w.channels[threadId].kind)) ==> r == Failure(Plain(NotAThread(threadId))))
  {
  }

  /** `list_channels`'s `type` argument. */
  datatype KindFilter = TextChannels | VoiceChannels | Categories | Forums | AllChannels

  /** `typeMap[type]`. */
  function FilterKind(f: KindFilter): ChannelKind
    requires f != AllChannels
  {
    match f
    case TextChannels => GuildText
    case VoiceChannels => GuildVoice
    case Categories => GuildCategory
    case Forums => GuildForum
  }

  datatype ChannelRow = ChannelRow(id: string, name: string, typeName: string, position: int, parentId: Option<string>)

  function RowOf(c: Channel): ChannelRow {
    ChannelRow(c.id, c.name, KindName(c.kind), c.position, c.parentId)
  }

  /** The channels of a listing, without the nulls. */
  function Present(listing: seq<Option<Channel>>): (r: seq<Channel>)
    ensures forall c | c in r :: Some(c) in listing
    ensures forall i | 0 <= i < |listing| && listing[i].Some? :: listing[i].value in r
    decreases |listing|
  {
    if listing == [] then []
    else Present(listing[..|listing| - 1]) + (if listing[|listing| - 1].Some? then [listing[|listing| - 1].value] else [])
  }

  function Rows(cs: seq<Channel>): (r: seq<ChannelRow>)
    ensures |r| == |cs| && forall i | 0 <= i < |cs| :: r[i] == RowOf(cs[i])
  {
    seq(|cs|, i requires 0 <= i < |cs| => RowOf(cs[i]))
  }

  predicate SortedByPosition(rows: seq<ChannelRow>) {
    forall i, j | 0 <= i < j < |rows| :: rows[i].position <= rows[j].position
  }

  /** Places `x` after every row whose position is not greater than its
      own, so rows of equal position keep their order. */
  function Insert(sorted: seq<ChannelRow>, x: ChannelRow): (r: seq<ChannelRow>)
    ensures multiset(r) == multiset(sorted) + multiset{x}
    decreases |sorted|
  {
    if sorted == [] || sorted[|sorted| - 1].position <= x.position then sorted + [x]
    else
      assert sorted == sorted[..|sorted| - 1] + [sorted[|sorted| - 1]];
      Insert(sorted[..|sorted| - 1], x) + [sorted[|sorted| - 1]]
  }

  lemma {:induction false} InsertSorted(sorted: seq<ChannelRow>, x: ChannelRow)
    requires SortedByPosition(sorted)
    ensures SortedByPosition(Insert(sorted, x))
    decreases |sorted|
  {
    if !(sorted == [] || sorted[|sorted| - 1].position <= x.position) {
      var init := sorted[..|sorted| - 1];
      var last := sorted[|sorted| - 1];
      InsertSorted(init, x);
      var r := Insert(init, x);
      forall y | y in r
        ensures y.position <= last.position
      {
        assert y in multiset(r);
        if y != x {
          assert y in multiset(init);
        }
      }
      forall i | 0 <= i < |r|
        ensures r[i].position <= last.position
      {
        assert r[i] in r;
      }
    }
  }

  /** `channelList.sort((a, b) => a.position - b.position)`. */
  function SortByPosition(rows: seq<ChannelRow>): (r: seq<ChannelRow>)
    ensures multiset(r) == multiset(rows)
    decreases |rows|
  {
    if rows == [] then []
    else
      assert rows == rows[..|rows| - 1] + [rows[|rows| - 1]];
      Insert(SortByPosition(rows[..|rows| - 1]), rows[|rows| - 1])
  }

  lemma {:induction false} SortByPositionSorted(rows: seq<ChannelRow>)
    ensures SortedByPosition(SortByPosition(rows))
    decreases |rows|
  {
    if rows != [] {
      SortByPositionSorted(rows[..|rows| - 1]);
      InsertSorted(SortByPosition(rows[..|rows| - 1]), rows[|rows| - 1]);
    }
  }

  function RowValue(row: ChannelRow): Value {
    Obj(map["id" := Str(row.id), "name" := Str(row.name), "type" := Str(row.typeName), "position" := Num(row.position),
            "parentId" := if row.parentId.Some? then Str(row.parentId.value) else Null])
  }

  function RowValues(rows: seq<ChannelRow>): (r: seq<Value>)
    ensures |r| == |rows| && forall i | 0 <= i < |rows| :: r[i] == RowValue(rows[i])
  {
    seq(|rows|, i requires 0 <= i < |rows| => RowValue(rows[i]))
  }

  /** The channels listed: present, and of the asked type unless all are. */
  function Listed(g: Guild, kind: KindFilter): seq<Channel> {
    var present := Present(g.listing);
    if kind == AllChannels then present else Filter(present, (c: Channel) => c.kind == FilterKind(kind))
  }

  function ListedRows(g: Guild, kind: KindFilter): seq<ChannelRow> {
    SortByPosition(Rows(Listed(g, kind)))
  }

  /** `list_channels`: the guild (no permission is checked), its channels
      without nulls, of the asked type, as rows sorted by position. */
  function ListChannelsPlan(w: World, guildId: string, kind: Option<KindFilter>): (r: Result<Step, Fault>) {
    var _ :- Client(w);
    var g :- FetchGuild(w, guildId);
    var rows := ListedRows(g, kind.GetOr(AllChannels));
    Success(Step([], map["channels" := Arr(RowValues(rows)), "totalCount" := Num(|rows|)], None))
  }

  /** The listing reads and changes nothing on the platform; its rows are
      sorted by position and are exactly the rows of the guild's present
      channels of the asked type (all types by default); `totalCount` is
      their number. */
  lemma ListChannelsSorted(w: World, guildId: string, kind: Option<KindFilter>)
    requires w.connected && guildId in w.guilds
    ensures var r := ListChannelsPlan(w, guildId, kind);
      var rows := ListedRows(w.guilds[guildId], kind.GetOr(AllChannels));
      && r.Success? && r.value.calls == []
      && SortedByPosition(rows)
      && multiset(rows) == multiset(Rows(Listed(w.guilds[guildId], kind.GetOr(AllChannels))))
      && r.value.out["channels"] == Arr(RowValues(rows))
      && r.value.out["totalCount"] == Num(|rows|)
  {
    SortByPositionSorted(Rows(Listed(w.guilds[guildId], kind.GetOr(AllChannels))));
  }

  /** What is listed: every present channel when all types are asked for;
      otherwise the present channels of the mapped type, and all of them. */
  lemma ListedChannels(g: Guild, kind: KindFilter)
    ensures forall c | c in Listed(g, kind) :: Some(c) in g.listing
    ensures kind != AllChannels ==> forall c | c in Listed(g, kind) :: c.kind == FilterKind(kind)
    ensures forall i | 0 <= i < |g.listing| && g.listing[i].Some? && (kind == AllChannels || g.listing[i].value.kind == FilterKind(kind))
              :: g.listing[i].value in Listed(g, kind)
  {
    var present := Present(g.listing);
    if kind != AllChannels {
      forall i | 0 <= i < |g.listing| && g.listing[i].Some? && g.listing[i].value.kind == FilterKind(kind)
        ensures g.listing[i].value in Listed(g, kind)
      {
        FilterKeeps(present, (c: Channel) => c.kind == FilterKind(kind), g.listing[i].value);
      }
    }
  }

  function NotAForum(forumId: string): string {
    "Channel " + forumId + " is not a forum channel"
  }

  /** The search of `find_threads`: the lower-cased name contains the
      lower-cased search text. */
  predicate NameMatches(t: ThreadInfo, search: string) {
    Contains(ToLower(t.name), ToLower(search))
  }

  /** The threads searched: the active ones, then the archived ones when
      asked for; those whose name matches when a search text is given; at
      most `limit` of them. */
  function FoundThreads(forum: Channel, name: Option<string>, archived: bool, limit: nat): seq<ThreadInfo> {
    var threads := forum.activeThreads + (if archived then forum.archivedThreads else []);
    var matching := if Truthy(name) then Filter(threads, (t: ThreadInfo) => NameMatches(t, name.value)) else threads;
    Take(matching, limit)
  }

  function ThreadValue(t: ThreadInfo): Value {
    Obj(map["id" := Str(t.id), "name" := Str(t.name),
            "ownerId" := Str(if t.ownerId.Some? then t.ownerId.value else ""),
            "messageCount" := Num(if t.messageCount.Some? then t.messageCount.value else 0),
            "memberCount" := Num(if t.memberCount.Some? then t.memberCount.value else 0),
            "archived" := Bool(t.archived == Some(true)),
            "locked" := Bool(t.locked == Some(true))])
  }

  function ThreadValues(ts: seq<ThreadInfo>): (r: seq<Value>)
    ensures |r| == |ts| && forall i | 0 <= i < |ts| :: r[i] == ThreadValue(ts[i])
  {
    seq(|ts|, i requires 0 <= i < |ts| => ThreadValue(ts[i]))
  }

  /** `find_threads`: a forum channel; in a guild, ViewChannel there; then
      the search. `limit` defaults to 50 and `archived` to false. */
  function FindThreadsPlan(w: World, forumId: string, name: Option<string>, archived: Option<bool>,
                           limit: Option<nat>): (r: Result<Step, Fault>) {
    var _ :- Client(w);
    if forumId !in w.channels || w.channels[forumId].kind != GuildForum then Failure(Plain(NotAForum(forumId)))
    else
      var forum := w.channels[forumId];
      var _ :- if forum.guildId.Some? then GuildPerm(GuildOf(w, forum), ViewChannel, forum.guildId.value) else Success(());
      var found := FoundThreads(forum, name, archived.GetOr(false), limit.GetOr(50));
      Success(Step([], map["threads" := Arr(ThreadValues(found)), "totalCount" := Num(|found|)], None))
  }

  /** The threads of one fetched list that a search text keeps, in order. */
  function Searched(ts: seq<ThreadInfo>, name: Option<string>): seq<ThreadInfo> {
    if Truthy(name) then Filter(ts, (t: ThreadInfo) => NameMatches(t, name.value)) else ts
  }

  /** The threads found are the first `limit` matches, the active ones
      before the archived ones (these only when asked for), each list in
      fetch order: so at most `limit`, each active or (when asked for)
      archived, each matching a given search text; and when fewer than
      `limit` match, every matching thread is found. */
  lemma FindThreadsBounds(forum: Channel, name: Option<string>, archived: bool, limit: nat)
    ensures var found := FoundThreads(forum, name, archived, limit);
      && found == Take(Searched(forum.activeThreads, name)
                       + (if archived then Searched(forum.archivedThreads, name) else []), limit)
      && |found| <= limit
      && (forall t | t in found :: t in forum.activeThreads || (archived && t in forum.archivedThreads))
      && (Truthy(name) ==> forall t | t in found :: NameMatches(t, name.value))
      && (forall t | t in forum.activeThreads && (!Truthy(name) || NameMatches(t, name.value))
            && |found| < limit :: t in found)
      && (forall t | archived && t in forum.archivedThreads && (!Truthy(name) || NameMatches(t, name.value))
            && |found| < limit :: t in found)
  {
    var threads := forum.activeThreads + (if archived then forum.archivedThreads else []);
    var matching := if Truthy(name) then Filter(threads, (t: ThreadInfo) => NameMatches(t, name.value)) else threads;
    var found := FoundThreads(forum, name, archived, limit);
    assert found == Take(matching, limit);
    SearchedConcat(forum, name, archived, threads, matching);
    forall t | t in found
      ensures t in threads
    {
    }
    if |found| < limit {
      assert found == matching;
      forall t | t in threads && (!Truthy(name) || NameMatches(t, name.value))
        ensures t in found
      {
        if Truthy(name) {
          FilterKeeps(threads, (t: ThreadInfo) => NameMatches(t, name.value), t);
        }
      }
    }
  }

  /** Searching the joined lists is searching each list and joining. */
  lemma SearchedConcat(forum: Channel, name: Option<string>, archived: bool, threads: seq<ThreadInfo>, matching: seq<ThreadInfo>)
    requires threads == forum.activeThreads + (if archived then forum.archivedThreads else [])
    requires matching == if Truthy(name) then Filter(threads, (t: ThreadInfo) => NameMatches(t, name.value)) else threads
    ensures matching == Searched(forum.activeThreads, name) + (if archived then Searched(forum.archivedThreads, name) else [])
  {
    var rest := if archived then forum.archivedThreads else [];
    if Truthy(name) {
      FilterConcat(forum.activeThreads, rest, (t: ThreadInfo) => NameMatches(t, name.value));
      if !archived {
        assert Filter(rest, (t: ThreadInfo) => NameMatches(t, name.value)) == [];
      }
    } else if !archived {
      assert threads == forum.activeThreads + [];
    }
  }

  /** Archived threads are searched only when asked for. */
  lemma ArchivedOnlyWhenAsked(forum: Channel, name: Option<string>, limit: nat)
    ensures forall t | t in FoundThreads(forum, name, false, limit) :: t in forum.activeThreads
  {
    FindThreadsBounds(forum, name, false, limit);
  }

  const NoDMs := "This tool only works with server channels, not DMs"

  /** The capability flags of `get_channel_details`. */
  datatype Capabilities = Capabilities(supportsThreads: bool, supportsMessages: bool, isForum: bool, isVoice: bool)

  function CapabilitiesOf(c: Channel): Capabilities {
    Capabilities(
      c.kind == GuildText || c.kind == GuildAnnouncement || c.kind == GuildForum,
      c.textBased,
      c.kind == GuildForum,
      c.kind == GuildVoice || c.kind == GuildStageVoice)
  }

  /** The flags follow the channel type: a forum supports threads, a voice
      channel is neither a forum nor a thread host, and messages are
      supported exactly for text-based channels. */
  lemma CapabilityFlags(c: Channel)
    ensures var f := CapabilitiesOf(c);
      && (f.isForum ==> f.supportsThreads)
      && (f.isVoice ==> !f.supportsThreads && !f.isForum)
      && (f.supportsThreads ==> HasThreadManager(c.kind))
      && (f.supportsMessages <==> c.textBased)
      && !(f.isForum && f.isVoice)
  {
  }

  /** `parent?.name || null` for the parent, looked up in the guild. */
  function ParentName(w: World, c: Channel): Value {
    if Truthy(c.parentId) && c.parentId.value in w.channels && w.channels[c.parentId.value].name != []
    then Str(w.channels[c.parentId.value].name) else Null
  }

  function DetailsValue(w: World, c: Channel): Fields {
    var f := CapabilitiesOf(c);
    map["id" := Str(c.id),
        "name" := Str(if c.name != [] then c.name else c.id),
        "type" := Num(KindCode(c.kind)),
        "typeName" := Str(KindName(c.kind)),
        "topic" := if Truthy(c.topic) then Str(c.topic.value) else Null,
        "nsfw" := Bool(c.nsfw == Some(true)),
        "parentId" := if Truthy(c.parentId) then Str(c.parentId.value) else Null,
        "parentName" := ParentName(w, c),
        "position" := Num(c.position),
        "supportsThreads" := Bool(f.supportsThreads),
        "supportsMessages" := Bool(f.supportsMessages),
        "isTextBased" := Bool(c.textBased),
        "isForum" := Bool(f.isForum),
        "isVoice" := Bool(f.isVoice)]
  }

  /** `get_channel_details`: any guild channel. */
  function ChannelDetailsPlan(w: World, channelId: string): (r: Result<Step, Fault>) {
    var _ :- Client(w);
    if channelId !in w.channels then Failure(ChannelNotFound(channelId))
    else
      var c := w.channels[channelId];
      if c.guildId.None? then Failure(Plain(NoDMs))
      else
        var shown := if c.name != [] then c.name else c.id;
        Success(Step([], map["channel" := Obj(DetailsValue(w, c))], Some("Channel: " + shown + " (" + KindName(c.kind) + ")")))
  }

  /** Details are given only for guild channels, change nothing, and report
      the capability flags of the channel's type: threads for text,
      announcement and forum channels, voice for voice and stage channels. */
  lemma ChannelDetailsFlags(w: World, channelId: string)
    ensures var r := ChannelDetailsPlan(w, channelId);
      && (r.Success? <==> w.connected && channelId in w.channels && w.channels[channelId].guildId.Some?)
      && (r.Success? ==>
            var c := w.channels[channelId];
            var d := r.value.out["channel"].fields;
            && r.value.calls == []
            && (d["supportsThreads"] == Bool(true) <==> c.kind in {GuildText, GuildAnnouncement, GuildForum})
            && (d["isVoice"] == Bool(true) <==> c.kind in {GuildVoice, GuildStageVoice})
            && (d["isForum"] == Bool(true) <==> c.kind == GuildForum)
            && d["supportsMessages"] == d["isTextBased"])
      && (w.connected && channelId in w.channels && w.channels[channelId].guildId.None? ==> r == Failure(Plain(NoDMs)))
  {
    var r := ChannelDetailsPlan(w, channelId);
    if r.Success? {
      var c := w.channels[channelId];
      assert r.value.out["channel"].fields == DetailsValue(w, c);
      DetailsFlags(w, c, DetailsValue(w, c));
    }
  }

  /** The flags reported are those of the channel's type. */
  lemma DetailsFlags(w: World, c: Channel, d: Fields)
    requires d == DetailsValue(w, c)
    ensures && (d["supportsThreads"] == Bool(true) <==> c.kind in {GuildText, GuildAnnouncement, GuildForum})
            && (d["isVoice"] == Bool(true) <==> c.kind in {GuildVoice, GuildStageVoice})
            && (d["isForum"] == Bool(true) <==> c.kind == GuildForum)
            && d["supportsMessages"] == d["isTextBased"]
  {
  }
}
