/** The messaging tools: send (plain, with a file, rich), read, delete,
    react, edit, pin and unpin. */
module Messaging {
  import opened Wrappers
  import opened Text
  import opened Errors
  import opened Schemas
  import opened Platform

  const SendMessageTool := Tool("Failed to send message: ", true)
  const ReadMessagesTool := Tool("Failed to read messages: ", true)
  const DeleteMessageTool := Tool("Failed to delete message: ", true)
  const AddReactionTool := Tool("Failed to add reaction: ", true)
  const EditMessageTool := Tool("Failed to edit message: ", true)
  const SendFileTool := Tool("Failed to send message with file: ", true)
  const PinMessageTool := Tool("Failed to pin message: ", true)
  const RichMessageTool := Tool("Failed to send rich message: ", true)
  const UnpinMessageTool := Tool("Failed to unpin message: ", true)

  /** The sending permissions in a guild channel: SendMessages, and for a
      thread SendMessagesInThreads as well. */
  function SendPerms(c: Channel, channelId: string): (r: Result<(), Fault>)
    ensures r.Success? <==> c.guildId.None? || (SendMessages in c.botPerms && (IsThread(c.kind) ==> SendMessagesInThreads in c.botPerms))
  {
    var _ :- GuildChannelPerm(c, SendMessages, channelId);
    if c.guildId.Some? && IsThread(c.kind) then ChannelPerm(c, SendMessagesInThreads, channelId) else Success(())
  }

  /** `send_message`: every text-based channel can `send`, so the second
      not-found check never fires. */
  function SendMessagePlan(w: World, channelId: string, content: string, embeds: Option<seq<Value>>): (r: Result<Step, Fault>) {
    var _ :- Client(w);
    var c :- FetchTextChannel(w, channelId);
    var _ :- SendPerms(c, channelId);
    Success(Step([Mutation(ChannelSend, [channelId], map["content" := Str(content), "embeds" := Arr(embeds.GetOr([]))])], map[], None))
  }

  /** A message is sent to a guild channel only with SendMessages, and to a
      thread only with SendMessagesInThreads too, which is checked second;
      the message carries the content and the embeds, none by default. */
  lemma SendMessageGates(w: World, channelId: string, content: string, embeds: Option<seq<Value>>)
    ensures var r := SendMessagePlan(w, channelId, content, embeds);
      && (r.Success? ==>
            var c := w.channels[channelId];
            && c.textBased
            && (c.guildId.Some? ==> SendMessages in c.botPerms)
            && (c.guildId.Some? && IsThread(c.kind) ==> SendMessagesInThreads in c.botPerms)
            && r.value.calls == [Mutation(ChannelSend, [channelId], map["content" := Str(content),
                                   "embeds" := Arr(if embeds.Some? then embeds.value else [])])])
      && (w.connected && channelId in w.channels && w.channels[channelId].textBased && w.channels[channelId].guildId.Some?
          && SendMessages !in w.channels[channelId].botPerms
          ==> r == Failure(PermissionDenied("SendMessages", channelId)))
      && (w.connected && channelId in w.channels && w.channels[channelId].textBased && w.channels[channelId].guildId.Some?
          && SendMessages in w.channels[channelId].botPerms && IsThread(w.channels[channelId].kind)
          && SendMessagesInThreads !in w.channels[channelId].botPerms
          ==> r == Failure(PermissionDenied("SendMessagesInThreads", channelId)))
  {
  }

  /** The formatted message: its id, content and author. */
  function MessageValue(m: ChatMessage): Value {
    Obj(map["id" := Str(m.id), "content" := Str(m.content),
            "author" := Obj(map["id" := Str(m.authorId), "bot" := Bool(m.authorBot)])])
  }

  function MessageValues(ms: seq<ChatMessage>): (r: seq<Value>)
    ensures |r| == |ms| && forall i | 0 <= i < |ms| :: r[i] == MessageValue(ms[i])
  {
    seq(|ms|, i requires 0 <= i < |ms| => MessageValue(ms[i]))
  }

  /** `read_messages`: a text channel; in a guild, ViewChannel and then
      ReadMessageHistory; then the newest `limit` messages. */
  function ReadMessagesPlan(w: World, channelId: string, limit: nat): (r: Result<Step, Fault>) {
    var _ :- Client(w);
    var c :- FetchTextChannel(w, channelId);
    var _ :- GuildChannelPerm(c, ViewChannel, channelId);
    var _ :- GuildChannelPerm(c, ReadMessageHistory, channelId);
    var fetched := Take(c.messages, limit);
    Success(Step([], map["messages" := Arr(MessageValues(fetched)), "hasMore" := Bool(|fetched| == limit)], None))
  }

  /** Reading needs ViewChannel, reported first, then ReadMessageHistory;
      it changes nothing; it returns the channel's newest min(`limit`,
      messages) messages, newest first; and `hasMore` holds exactly when a full page of
      `limit` messages came back, which means the channel holds at least
      `limit` messages. */
  lemma ReadMessagesGates(w: World, channelId: string, limit: nat)
    ensures var r := ReadMessagesPlan(w, channelId, limit);
      && (w.connected && channelId in w.channels && w.channels[channelId].textBased && w.channels[channelId].guildId.Some?
          && ViewChannel !in w.channels[channelId].botPerms
          ==> r == Failure(PermissionDenied("ViewChannel", channelId)))
      && (w.connected && channelId in w.channels && w.channels[channelId].textBased && w.channels[channelId].guildId.Some?
          && ViewChannel in w.channels[channelId].botPerms && ReadMessageHistory !in w.channels[channelId].botPerms
          ==> r == Failure(PermissionDenied("ReadMessageHistory", channelId)))
      && (r.Success? ==>
            var c := w.channels[channelId];
            && r.value.calls == []
            && |r.value.out["messages"].items| == Min(limit, |c.messages|)
            && (forall i | 0 <= i < |r.value.out["messages"].items| :: r.value.out["messages"].items[i] == MessageValue(c.messages[i]))
            && (r.value.out["hasMore"] == Bool(true) <==> |c.messages| >= limit))
  {
  }

  /** A message is looked up only in a text channel that was found. */
  function FetchChannelMessage(w: World, channelId: string, messageId: string): (r: Result<(Channel, ChatMessage), Fault>)
    ensures w.connected && (channelId !in w.channels || !w.channels[channelId].textBased) ==> r == Failure(ChannelNotFound(channelId))
    ensures r.Success? ==> channelId in w.channels && r.value.0 == w.channels[channelId] && r.value.0.textBased
                           && r.value.1 in r.value.0.messages && r.value.1.id == messageId
  {
    var _ :- Client(w);
    var c :- FetchTextChannel(w, channelId);
    var m :- FetchMessage(c, messageId);
    Success((c, m))
  }

  /** `delete_message`: the bot's own messages need no permission. */
  function DeleteMessagePlan(w: World, channelId: string, messageId: string): (r: Result<Step, Fault>) {
    var cm :- FetchChannelMessage(w, channelId, messageId);
    var (c, m) := cm;
    var _ :- if m.authorId != w.botId then GuildChannelPerm(c, ManageMessages, channelId) else Success(());
    Success(Step([Mutation(MessageDelete, [channelId, messageId], map[])], map["deletedMessageId" := Str(messageId)], None))
  }

  /** ManageMessages is asked for only when the message is not the bot's
      own and the channel is a guild's; a missing channel is reported before
      any message lookup. */
  lemma DeleteMessageGate(w: World, channelId: string, messageId: string)
    ensures var r := DeleteMessagePlan(w, channelId, messageId);
      && (w.connected && (channelId !in w.channels || !w.channels[channelId].textBased) ==> r == Failure(ChannelNotFound(channelId)))
      && (r.Success? ==>
            var c := w.channels[channelId];
            && (exists m | m in c.messages :: m.id == messageId && (m.authorId == w.botId || c.guildId.None? || ManageMessages in c.botPerms))
            && r.value.calls == [Mutation(MessageDelete, [channelId, messageId], map[])])
      && (r.Failure? && r.error.PermissionDenied? ==> r.error == PermissionDenied("ManageMessages", channelId))
  {
    var r := DeleteMessagePlan(w, channelId, messageId);
    if r.Success? {
      var cm := FetchChannelMessage(w, channelId, messageId);
      assert cm.value.1 in w.channels[channelId].messages;
    }
  }

  /** The bot deletes its own message whatever its permissions. */
  lemma DeleteOwnMessage(w: World, channelId: string, messageId: string)
    requires w.connected && channelId in w.channels && w.channels[channelId].textBased
    requires FindMessage(w.channels[channelId].messages, messageId).Some?
    requires FindMessage(w.channels[channelId].messages, messageId).value.authorId == w.botId
    ensures DeleteMessagePlan(w, channelId, messageId).Success?
  {
  }

  /** `add_reaction`: AddReactions in a guild, after the message lookup. */
  function AddReactionPlan(w: World, channelId: string, messageId: string, emoji: string): (r: Result<Step, Fault>) {
    var cm :- FetchChannelMessage(w, channelId, messageId);
    var _ :- GuildChannelPerm(cm.0, AddReactions, channelId);
    Success(Step([Mutation(MessageReact, [channelId, messageId], map["emoji" := Str(emoji)])], map[], None))
  }

  /** `pin_message` and `unpin_message`: ManageMessages in a guild, after
      the message lookup. */
  function PinPlan(w: World, channelId: string, messageId: string, reason: Option<string>, pin: bool): (r: Result<Step, Fault>) {
    var cm :- FetchChannelMessage(w, channelId, messageId);
    var _ :- GuildChannelPerm(cm.0, ManageMessages, channelId);
    Success(Step([Mutation(if pin then MessagePin else MessageUnpin, [channelId, messageId], Put(map[], "reason", StrOf(reason)))],
                 map[(if pin then "pinnedMessageId" else "unpinnedMessageId") := Str(messageId)], None))
  }

  /** Reacting, pinning and unpinning each issue their one call only for an
      existing message of a text channel, and in a guild only with their
      permission: AddReactions, or ManageMessages. */
  lemma ReactAndPinGates(w: World, channelId: string, messageId: string, emoji: string, reason: Option<string>, pin: bool)
    ensures var r := AddReactionPlan(w, channelId, messageId, emoji);
      && (r.Success? <==> FetchChannelMessage(w, channelId, messageId).Success?
                          && (w.channels[channelId].guildId.None? || AddReactions in w.channels[channelId].botPerms))
      && (r.Success? ==> r.value.calls == [Mutation(MessageReact, [channelId, messageId], map["emoji" := Str(emoji)])])
    ensures var r := PinPlan(w, channelId, messageId, reason, pin);
      && (r.Success? <==> FetchChannelMessage(w, channelId, messageId).Success?
                          && (w.channels[channelId].guildId.None? || ManageMessages in w.channels[channelId].botPerms))
      && (r.Success? ==> |r.value.calls| == 1 && r.value.calls[0].api == (if pin then MessagePin else MessageUnpin))
  {
  }

  const NotOwnMessage := "Can only edit messages sent by the bot. This message belongs to another user."

  /** `edit_message`: only the bot's own messages; `content || message.content`
      and `embeds || message.embeds`, where any list, even an empty one,
      replaces the embeds. */
  function EditMessagePlan(w: World, channelId: string, messageId: string, content: Option<string>,
                           embeds: Option<seq<Value>>): (r: Result<Step, Fault>) {
    var cm :- FetchChannelMessage(w, channelId, messageId);
    var m := cm.1;
    if m.authorId != w.botId then Failure(Plain(NotOwnMessage))
    else
      var newContent := if Truthy(content) then content.value else m.content;
      var newEmbeds := if embeds.Some? then embeds.value else m.embeds;
      Success(Step([Mutation(MessageEdit, [channelId, messageId], map["content" := Str(newContent), "embeds" := Arr(newEmbeds)])], map[], None))
  }

  /** Another author's message is never edited; an edit keeps the old
      content when no non-empty content is given, and the old embeds when
      no list is given. */
  lemma EditMessageFallback(w: World, channelId: string, messageId: string, content: Option<string>, embeds: Option<seq<Value>>)
    ensures var r := EditMessagePlan(w, channelId, messageId, content, embeds);
      && (FetchChannelMessage(w, channelId, messageId).Success? && FetchChannelMessage(w, channelId, messageId).value.1.authorId != w.botId
          ==> r == Failure(Plain(NotOwnMessage)))
      && (r.Success? ==>
            var m := FetchChannelMessage(w, channelId, messageId).value.1;
            var p := r.value.calls[0].payload;
            && m.authorId == w.botId && |r.value.calls| == 1
            && p["content"] == Str(if content.None? || content.value == [] then m.content else content.value)
            && p["embeds"] == Arr(if embeds.None? then m.embeds else embeds.value))
  {
  }

  /** Strips trailing separators. */
  function StripSlashes(p: string): (r: string)
    ensures r <= p && (r == [] || r[|r| - 1] != '/')
  {
    if p != [] && p[|p| - 1] == '/' then StripSlashes(p[..|p| - 1]) else p
  }

  /** The part after the last separator. */
  function LastSegment(p: string): (r: string)
    ensures '/' !in r
  {
    if p == [] then []
    else if p[|p| - 1] == '/' then []
    else LastSegment(p[..|p| - 1]) + [p[|p| - 1]]
  }

  /** `path.basename` on POSIX paths. */
  function Basename(p: string): string {
    LastSegment(StripSlashes(p))
  }

  lemma {:induction false} LastSegmentOf(dir: string, name: string)
    requires '/' !in name
    ensures LastSegment(dir + "/" + name) == name
    decreases |name|
  {
    if name == [] {
      assert (dir + "/" + name)[|dir + "/" + name| - 1] == '/';
    } else {
      var p := dir + "/" + name;
      assert p[..|p| - 1] == dir + "/" + name[..|name| - 1];
      LastSegmentOf(dir, name[..|name| - 1]);
      assert name == name[..|name| - 1] + [name[|name| - 1]];
    }
  }

  /** The base name holds no separator, and it is the name of a file in a
      directory, with or without trailing separators. */
  lemma BasenameOfPath(dir: string, name: string, trailing: nat)
    requires '/' !in name && name != []
    ensures '/' !in Basename(dir + "/" + name)
    ensures Basename(dir + "/" + name + seq(trailing, _ => '/')) == name
    decreases trailing
  {
    var p := dir + "/" + name;
    assert p[|p| - 1] == name[|name| - 1];
    assert StripSlashes(p) == p;
    LastSegmentOf(dir, name);
    if trailing > 0 {
      var q := p + seq(trailing, _ => '/');
      assert q[..|q| - 1] == p + seq(trailing - 1, _ => '/');
      BasenameOfPath(dir, name, trailing - 1);
    } else {
      assert p + seq(0, _ => '/') == p;
    }
  }

  /** `send_message_with_file`: the sending permissions with AttachFiles
      between them, then the file, then the message. */
  function SendFilePlan(w: World, channelId: string, content: Option<string>, filePath: string, fileName: Option<string>,
                        embeds: Option<seq<Value>>): (r: Result<Step, Fault>) {
    var _ :- Client(w);
    var c :- FetchTextChannel(w, channelId);
    var _ :- GuildChannelPerm(c, SendMessages, channelId);
    var _ :- GuildChannelPerm(c, AttachFiles, channelId);
    var _ :- if c.guildId.Some? && IsThread(c.kind) then ChannelPerm(c, SendMessagesInThreads, channelId) else Success(());
    if filePath !in w.files then Failure(Plain("File not found: " + filePath))
    else
      var attachment := Obj(map["attachment" := Str(filePath), "name" := Str(AttachmentName(filePath, fileName))]);
      var payload := Put(map["embeds" := Arr(embeds.GetOr([])), "files" := Arr([attachment])], "content",
                         if Truthy(content) then Some(Str(content.value)) else None);
      Success(Step([Mutation(ChannelSend, [channelId], payload)], map[], None))
  }

  /** `fileName || path.basename(filePath)`. */
  function AttachmentName(filePath: string, fileName: Option<string>): string {
    if Truthy(fileName) then fileName.value else Basename(filePath)
  }

  /** The permissions are checked before the file is looked for, and a
      missing file sends nothing; a sent message carries exactly one file,
      named as asked or after the path, and content only when some is
      given. */
  lemma SendFileOrder(w: World, channelId: string, content: Option<string>, filePath: string, fileName: Option<string>,
                      embeds: Option<seq<Value>>)
    ensures var r := SendFilePlan(w, channelId, content, filePath, fileName, embeds);
      && (w.connected && channelId in w.channels && w.channels[channelId].textBased && w.channels[channelId].guildId.Some?
          && SendMessages in w.channels[channelId].botPerms && AttachFiles !in w.channels[channelId].botPerms
          ==> r == Failure(PermissionDenied("AttachFiles", channelId)))
      && (r.Success? ==>
            var p := r.value.calls[0].payload;
            && filePath in w.files && |r.value.calls| == 1
            && p["files"] == Arr([Obj(map["attachment" := Str(filePath), "name" := Str(AttachmentName(filePath, fileName))])])
            && ("content" in p <==> Truthy(content)))
      && (r.Failure? && filePath in w.files ==> !r.error.Plain?)
  {
  }

  /** In a guild channel SendMessages is checked first, then AttachFiles,
      then, in a thread, SendMessagesInThreads; each missing one is
      refused by name. */
  lemma SendFileRefusals(w: World, channelId: string, content: Option<string>, filePath: string, fileName: Option<string>,
                         embeds: Option<seq<Value>>)
    requires w.connected && channelId in w.channels && w.channels[channelId].textBased && w.channels[channelId].guildId.Some?
    ensures var r := SendFilePlan(w, channelId, content, filePath, fileName, embeds);
      var perms := w.channels[channelId].botPerms;
      && (SendMessages !in perms ==> r == Failure(PermissionDenied("SendMessages", channelId)))
      && (SendMessages in perms && AttachFiles !in perms ==> r == Failure(PermissionDenied("AttachFiles", channelId)))
      && (IsThread(w.channels[channelId].kind) && SendMessages in perms && AttachFiles in perms && SendMessagesInThreads !in perms
          ==> r == Failure(PermissionDenied("SendMessagesInThreads", channelId)))
  {
    var r := SendFilePlan(w, channelId, content, filePath, fileName, embeds);
    var c := w.channels[channelId];
    assert FetchTextChannel(w, channelId) == Success(c);
    if SendMessages !in c.botPerms {
      assert r == Failure(PermissionDenied("SendMessages", channelId));
    } else if AttachFiles !in c.botPerms {
      assert r == Failure(PermissionDenied("AttachFiles", channelId));
    } else if IsThread(c.kind) && SendMessagesInThreads !in c.botPerms {
      assert r == Failure(PermissionDenied("SendMessagesInThreads", channelId));
    }
  }

  /** `send_rich_message`'s `embed` argument; `timestamp` asks for the
      current time. */
  datatype RichEmbed = RichEmbed(
    title: Option<string>,
    description: Option<string>,
    url: Option<string>,
    color: Option<int>,
    image: Option<string>,
    thumbnail: Option<string>,
    author: Option<Author>,
    footer: Option<Footer>,
    fields: Option<seq<Field>>,
    timestamp: Option<bool>)

  function FieldValue(f: Field): Value {
    Obj(Put(map["name" := Str(f.name), "value" := Str(f.value)], "inline", BoolOf(f.inline)))
  }

  function FieldValues(fs: seq<Field>): (r: seq<Value>)
    ensures |r| == |fs| && forall i | 0 <= i < |fs| :: r[i] == FieldValue(fs[i])
  {
    seq(|fs|, i requires 0 <= i < |fs| => FieldValue(fs[i]))
  }

  function AuthorValue(a: Author): Value {
    Obj(Put(Put(map["name" := Str(a.name)], "url", StrOf(a.url)), "icon_url", StrOf(a.iconUrl)))
  }

  function FooterValue(f: Footer): Value {
    Obj(Put(map["text" := Str(f.text)], "icon_url", StrOf(f.iconUrl)))
  }

  /** A string member that is set only when non-empty (`if (x)`). */
  function TextOf(s: Option<string>): (r: Option<Value>)
    ensures r.Some? <==> Truthy(s)
    ensures r.Some? ==> r.value == Str(s.value)
  {
    if Truthy(s) then Some(Str(s.value)) else None
  }

  /** `{ url }` for an image or thumbnail given as a non-empty URL. */
  function UrlObjectOf(s: Option<string>): (r: Option<Value>)
    ensures r.Some? <==> Truthy(s)
  {
    if Truthy(s) then Some(Obj(map["url" := Str(s.value)])) else None
  }

  function AuthorOf(a: Option<Author>): (r: Option<Value>)
    ensures r.Some? <==> a.Some?
  {
    if a.Some? then Some(AuthorValue(a.value)) else None
  }

  function FooterOf(f: Option<Footer>): (r: Option<Value>)
    ensures r.Some? <==> f.Some?
  {
    if f.Some? then Some(FooterValue(f.value)) else None
  }

  function FieldsOf(fs: Option<seq<Field>>): (r: Option<Value>)
    ensures r.Some? <==> fs.Some?
  {
    if fs.Some? then Some(Arr(FieldValues(fs.value))) else None
  }

  function TimestampOf(t: Option<bool>, now: string): (r: Option<Value>)
    ensures r.Some? <==> t == Some(true)
    ensures r.Some? ==> r.value == Str(now)
  {
    if t == Some(true) then Some(Str(now)) else None
  }

  /** The text members of `embedObj`: each only when non-empty, and
      `color` whenever defined. */
  function EmbedHead(e: RichEmbed): Fields {
    Put(Put(Put(Put(map[], "title", TextOf(e.title)), "description", TextOf(e.description)), "url", TextOf(e.url)),
        "color", NumOf(e.color))
  }

  /** The text members and the nested objects of `embedObj`. */
  function EmbedBody(e: RichEmbed): Fields {
    var o := Put(Put(EmbedHead(e), "author", AuthorOf(e.author)), "footer", FooterOf(e.footer));
    Put(Put(o, "image", UrlObjectOf(e.image)), "thumbnail", UrlObjectOf(e.thumbnail))
  }

  /** `embedObj`, member by member: the text members, then the nested
      objects when present, then the current time `now` when asked for. */
  function EmbedObject(e: RichEmbed, now: string): Fields {
    Put(Put(EmbedBody(e), "fields", FieldsOf(e.fields)), "timestamp", TimestampOf(e.timestamp, now))
  }

  lemma EmbedHeadFields(e: RichEmbed)
    ensures "title" in EmbedHead(e) <==> Truthy(e.title)
    ensures "description" in EmbedHead(e) <==> Truthy(e.description)
    ensures "url" in EmbedHead(e) <==> Truthy(e.url)
    ensures "color" in EmbedHead(e) <==> e.color.Some?
    ensures EmbedHead(e).Keys <= {"title", "description", "url", "color"}
    ensures e.color.Some? ==> EmbedHead(e)["color"] == Num(e.color.value)
    ensures Truthy(e.title) ==> EmbedHead(e)["title"] == Str(e.title.value)
  {
  }

  /** What `EmbedHeadFields` states of the text members, for any object. */
  predicate HeadHolds(o: Fields, e: RichEmbed) {
    ("title" in o <==> Truthy(e.title))
    && ("description" in o <==> Truthy(e.description))
    && ("url" in o <==> Truthy(e.url))
    && ("color" in o <==> e.color.Some?)
    && (e.color.Some? ==> o["color"] == Num(e.color.value))
    && (Truthy(e.title) ==> o["title"] == Str(e.title.value))
  }

  /** Two `Put`s under other keys keep the text members. */
  lemma HeadKept(o: Fields, e: RichEmbed, k1: string, v1: Option<Value>, k2: string, v2: Option<Value>)
    requires HeadHolds(o, e)
    requires k1 !in {"title", "description", "url", "color"} && k2 !in {"title", "description", "url", "color"}
    ensures HeadHolds(Put(Put(o, k1, v1), k2, v2), e)
  {
    PutPutKeeps(o, k1, v1, k2, v2, "title");
    PutPutKeeps(o, k1, v1, k2, v2, "description");
    PutPutKeeps(o, k1, v1, k2, v2, "url");
    PutPutKeeps(o, k1, v1, k2, v2, "color");
  }

  lemma EmbedBodyFields(e: RichEmbed)
    ensures "title" in EmbedBody(e) <==> Truthy(e.title)
    ensures "description" in EmbedBody(e) <==> Truthy(e.description)
    ensures "url" in EmbedBody(e) <==> Truthy(e.url)
    ensures "color" in EmbedBody(e) <==> e.color.Some?
    ensures "author" in EmbedBody(e) <==> e.author.Some?
    ensures "footer" in EmbedBody(e) <==> e.footer.Some?
    ensures "image" in EmbedBody(e) <==> Truthy(e.image)
    ensures "thumbnail" in EmbedBody(e) <==> Truthy(e.thumbnail)
    ensures EmbedBody(e).Keys <= {"title", "description", "url", "color", "author", "footer", "image", "thumbnail"}
    ensures e.color.Some? ==> EmbedBody(e)["color"] == Num(e.color.value)
    ensures Truthy(e.title) ==> EmbedBody(e)["title"] == Str(e.title.value)
  {
    var h, b := EmbedHead(e), EmbedBody(e);
    EmbedHeadFields(e);
    HeadLeavesRoom(h);
    BodyFrom(h, e, b);
    BodyKeys(h, e, b);
  }

  lemma HeadLeavesRoom(h: Fields)
    requires h.Keys <= {"title", "description", "url", "color"}
    ensures "author" !in h && "footer" !in h && "image" !in h && "thumbnail" !in h
  {
  }

  lemma BodyKeys(h: Fields, e: RichEmbed, b: Fields)
    requires h.Keys <= {"title", "description", "url", "color"}
    requires b == Put(Put(Put(Put(h, "author", AuthorOf(e.author)), "footer", FooterOf(e.footer)),
                          "image", UrlObjectOf(e.image)), "thumbnail", UrlObjectOf(e.thumbnail))
    ensures b.Keys <= {"title", "description", "url", "color", "author", "footer", "image", "thumbnail"}
  {
  }

  /** The members `embedObj` gains after its text members. */
  lemma BodyFrom(h: Fields, e: RichEmbed, b: Fields)
    requires HeadHolds(h, e)
    requires "author" !in h && "footer" !in h && "image" !in h && "thumbnail" !in h
    requires b == Put(Put(Put(Put(h, "author", AuthorOf(e.author)), "footer", FooterOf(e.footer)),
                          "image", UrlObjectOf(e.image)), "thumbnail", UrlObjectOf(e.thumbnail))
    ensures BodyHolds(b, e)
  {
    var o := Put(Put(h, "author", AuthorOf(e.author)), "footer", FooterOf(e.footer));
    HeadKept(h, e, "author", AuthorOf(e.author), "footer", FooterOf(e.footer));
    HeadKept(o, e, "image", UrlObjectOf(e.image), "thumbnail", UrlObjectOf(e.thumbnail));
    PutPutKeeps(o, "image", UrlObjectOf(e.image), "thumbnail", UrlObjectOf(e.thumbnail), "author");
    PutPutKeeps(o, "image", UrlObjectOf(e.image), "thumbnail", UrlObjectOf(e.thumbnail), "footer");
  }

  /** What `EmbedBodyFields` states of the members, for any object. */
  predicate BodyHolds(o: Fields, e: RichEmbed) {
    HeadHolds(o, e)
    && ("author" in o <==> e.author.Some?)
    && ("footer" in o <==> e.footer.Some?)
    && ("image" in o <==> Truthy(e.image))
    && ("thumbnail" in o <==> Truthy(e.thumbnail))
  }

  /** The members `embedObj` gains last: `fields` and the time. */
  lemma ObjectFrom(b: Fields, e: RichEmbed, now: string, o: Fields)
    requires BodyHolds(b, e)
    requires b.Keys <= {"title", "description", "url", "color", "author", "footer", "image", "thumbnail"}
    requires o == Put(Put(b, "fields", FieldsOf(e.fields)), "timestamp", TimestampOf(e.timestamp, now))
    ensures BodyHolds(o, e)
    ensures "fields" in o <==> e.fields.Some?
    ensures "timestamp" in o <==> e.timestamp == Some(true)
    ensures e.timestamp == Some(true) ==> o["timestamp"] == Str(now)
  {
    var f, t := FieldsOf(e.fields), TimestampOf(e.timestamp, now);
    HeadKept(b, e, "fields", f, "timestamp", t);
    PutPutKeeps(b, "fields", f, "timestamp", t, "author");
    PutPutKeeps(b, "fields", f, "timestamp", t, "footer");
    PutPutKeeps(b, "fields", f, "timestamp", t, "image");
    PutPutKeeps(b, "fields", f, "timestamp", t, "thumbnail");
  }

  /** The embed holds exactly the provided members: a text member when it
      is non-empty, `color` whenever it is defined, 0 included, and the
      time only when asked for. */
  lemma EmbedObjectFields(e: RichEmbed, now: string)
    ensures "title" in EmbedObject(e, now) <==> Truthy(e.title)
    ensures "description" in EmbedObject(e, now) <==> Truthy(e.description)
    ensures "url" in EmbedObject(e, now) <==> Truthy(e.url)
    ensures "color" in EmbedObject(e, now) <==> e.color.Some?
    ensures "author" in EmbedObject(e, now) <==> e.author.Some?
    ensures "footer" in EmbedObject(e, now) <==> e.footer.Some?
    ensures "image" in EmbedObject(e, now) <==> Truthy(e.image)
    ensures "thumbnail" in EmbedObject(e, now) <==> Truthy(e.thumbnail)
    ensures "fields" in EmbedObject(e, now) <==> e.fields.Some?
    ensures "timestamp" in EmbedObject(e, now) <==> e.timestamp == Some(true)
    ensures e.color.Some? ==> EmbedObject(e, now)["color"] == Num(e.color.value)
    ensures Truthy(e.title) ==> EmbedObject(e, now)["title"] == Str(e.title.value)
    ensures e.timestamp == Some(true) ==> EmbedObject(e, now)["timestamp"] == Str(now)
  {
    EmbedBodyFields(e);
    ObjectFrom(EmbedBody(e), e, now, EmbedObject(e, now));
  }

  /** The embed holds no member besides those ten. */
  lemma EmbedObjectKeys(e: RichEmbed, now: string)
    ensures EmbedObject(e, now).Keys
            <= {"title", "description", "url", "color", "author", "footer", "image", "thumbnail", "fields", "timestamp"}
  {
    EmbedBodyFields(e);
  }

  /** `send_rich_message`: SendMessages, EmbedLinks when an embed is given,
      SendMessagesInThreads for a thread; then one message whose embeds are
      the built embed or none. */
  function RichMessagePlan(w: World, channelId: string, content: Option<string>, embed: Option<RichEmbed>,
                           now: string): (r: Result<Step, Fault>) {
    var _ :- Client(w);
    var c :- FetchTextChannel(w, channelId);
    var _ :- GuildChannelPerm(c, SendMessages, channelId);
    var _ :- if embed.Some? then GuildChannelPerm(c, EmbedLinks, channelId) else Success(());
    var _ :- if c.guildId.Some? && IsThread(c.kind) then ChannelPerm(c, SendMessagesInThreads, channelId) else Success(());
    var embeds := if embed.Some? then [Obj(EmbedObject(embed.value, now))] else [];
    var payload := Put(map["embeds" := Arr(embeds)], "content", if Truthy(content) then Some(Str(content.value)) else None);
    Success(Step([Mutation(ChannelSend, [channelId], payload)], map[], None))
  }

  /** EmbedLinks is asked for exactly when an embed is given: a message
      without one is sent without it, and a message with one is refused
      without it. */
  lemma RichMessageEmbedLinks(w: World, channelId: string, content: Option<string>, embed: Option<RichEmbed>, now: string)
    requires w.connected && channelId in w.channels && w.channels[channelId].textBased
    requires w.channels[channelId].guildId.Some? && SendMessages in w.channels[channelId].botPerms
    requires !IsThread(w.channels[channelId].kind)
    ensures var r := RichMessagePlan(w, channelId, content, embed, now);
      && (embed.None? ==> r.Success? && r.value.calls[0].payload["embeds"] == Arr([]))
      && (embed.Some? ==> (r.Success? <==> EmbedLinks in w.channels[channelId].botPerms))
      && (embed.Some? && EmbedLinks !in w.channels[channelId].botPerms ==> r == Failure(PermissionDenied("EmbedLinks", channelId)))
      && (embed.Some? && r.Success? ==> r.value.calls[0].payload["embeds"] == Arr([Obj(EmbedObject(embed.value, now))]))
  {
  }
}
