/** The moderation tools: bulk deletion through a filter pipeline, the ban
    listing, and nickname changes guarded by the role hierarchy. */
module Moderation {
  import opened Wrappers
  import opened Text
  import opened Errors
  import opened Platform

  const BulkDeleteTool := Tool("Failed to bulk delete messages: ", true)
  const GetBansTool := Tool("Failed to get bans: ", true)
  const SetNicknameTool := Tool("Failed to set nickname: ", true)

  /** Discord refuses to bulk-delete messages older than two weeks. */
  const TwoWeeksMs := 14 * 24 * 60 * 60 * 1000

  const NothingToDelete := "No messages found matching criteria or all messages are too old (>14 days)"

  /** A message survives every active filter: the author filter when a
      non-empty user id is given, the bot filter when it is set, and the age
      cutoff always. */
  predicate Wanted(m: ChatMessage, filterUserId: Option<string>, filterBots: Option<bool>, cutoff: int) {
    && (Truthy(filterUserId) ==> m.authorId == filterUserId.value)
    && (filterBots == Some(true) ==> m.authorBot)
    && m.createdAt > cutoff
  }

  /** The three filter stages, each applied to what the previous one left. */
  function Selection(fetched: seq<ChatMessage>, filterUserId: Option<string>, filterBots: Option<bool>, cutoff: int): seq<ChatMessage> {
    var byUser := if Truthy(filterUserId) then Filter(fetched, (m: ChatMessage) => m.authorId == filterUserId.value) else fetched;
    var byBot := if filterBots == Some(true) then Filter(byUser, (m: ChatMessage) => m.authorBot) else byUser;
    Filter(byBot, (m: ChatMessage) => m.createdAt > cutoff)
  }

  /** The pipeline is one filter by `Wanted`: what it keeps is a subsequence
      of the fetched messages, in their order, each satisfying every active
      filter, and no fetched message that satisfies them all is dropped. */
  lemma SelectionIsWanted(fetched: seq<ChatMessage>, filterUserId: Option<string>, filterBots: Option<bool>, cutoff: int)
    ensures Selection(fetched, filterUserId, filterBots, cutoff)
         == Filter(fetched, (m: ChatMessage) => Wanted(m, filterUserId, filterBots, cutoff))
    ensures forall m | m in Selection(fetched, filterUserId, filterBots, cutoff) ::
              m in fetched && Wanted(m, filterUserId, filterBots, cutoff)
    ensures forall m | m in fetched && Wanted(m, filterUserId, filterBots, cutoff) ::
              m in Selection(fetched, filterUserId, filterBots, cutoff)
  {
    var wanted := (m: ChatMessage) => Wanted(m, filterUserId, filterBots, cutoff);
    var user := (m: ChatMessage) => Truthy(filterUserId) ==> m.authorId == filterUserId.value;
    var userBot := (m: ChatMessage) => user(m) && (filterBots == Some(true) ==> m.authorBot);
    var byUser := if Truthy(filterUserId) then Filter(fetched, (m: ChatMessage) => m.authorId == filterUserId.value) else fetched;
    assert byUser == Filter(fetched, user) by {
      if Truthy(filterUserId) {
        FilterSame(fetched, (m: ChatMessage) => m.authorId == filterUserId.value, user);
      } else {
        FilterAll(fetched, user);
      }
    }
    var byBot := if filterBots == Some(true) then Filter(byUser, (m: ChatMessage) => m.authorBot) else byUser;
    assert byBot == Filter(fetched, userBot) by {
      if filterBots == Some(true) {
        FilterFuse(fetched, user, (m: ChatMessage) => m.authorBot, userBot);
      } else {
        FilterFuse(fetched, user, (m: ChatMessage) => true, userBot);
        FilterAll(Filter(fetched, user), (m: ChatMessage) => true);
      }
    }
    FilterFuse(fetched, userBot, (m: ChatMessage) => m.createdAt > cutoff, wanted);
    forall m | m in fetched && wanted(m)
      ensures m in Filter(fetched, wanted)
    {
      FilterKeeps(fetched, wanted, m);
    }
  }

  /** A filter that passes everything keeps everything. */
  lemma {:induction false} FilterAll<T>(xs: seq<T>, p: T -> bool)
    requires forall i | 0 <= i < |xs| :: p(xs[i])
    ensures Filter(xs, p) == xs
    decreases |xs|
  {
    if xs != [] {
      var n := |xs| - 1;
      FilterAll(xs[..n], p);
      assert xs[..n] + [xs[n]] == xs;
      FilterSnoc(xs[..n], xs[n], p);
    }
  }

  function Ids(msgs: seq<ChatMessage>): (r: seq<string>)
    ensures |r| == |msgs| && forall i | 0 <= i < |msgs| :: r[i] == msgs[i].id
  {
    seq(|msgs|, i requires 0 <= i < |msgs| => msgs[i].id)
  }

  /** `bulk_delete_messages`: a text channel, ManageMessages in a guild, the
      newest `limit` messages through the filters, then one `bulkDelete`
      call with old messages filtered out by the platform too. Channels
      outside a guild have no `bulkDelete`. */
  function BulkDeletePlan(w: World, channelId: string, limit: nat, filterUserId: Option<string>,
                          filterBots: Option<bool>, now: int): (r: Result<Step, Fault>)
  {
    var _ :- Client(w);
    var c :- FetchTextChannel(w, channelId);
    var _ :- GuildChannelPerm(c, ManageMessages, channelId);
    var doomed := Selection(Take(c.messages, limit), filterUserId, filterBots, now - TwoWeeksMs);
    if doomed == [] then Failure(Plain(NothingToDelete))
    else if c.guildId.None? then Failure(ChannelNotFound(channelId))
    else
      var count := |doomed|;
      Success(Step([Mutation(BulkDelete, [channelId], map["messages" := Strs(Ids(doomed)), "filterOld" := Bool(true)])],
                   map["deletedCount" := Num(count)],
                   Some("Successfully deleted " + NatToString(count) + " message(s)")))
  }

  /** The gates come first: without ManageMessages in a guild channel the
      call fails whatever the messages are; with no survivor it fails
      without any call; otherwise exactly one `bulkDelete` is issued, for
      the surviving messages of the newest `limit`, and only for messages
      younger than two weeks. */
  lemma BulkDeleteGates(w: World, channelId: string, limit: nat, filterUserId: Option<string>,
                        filterBots: Option<bool>, now: int)
    ensures var r := BulkDeletePlan(w, channelId, limit, filterUserId, filterBots, now);
      && (!w.connected ==> r == Failure(NotConnected))
      && (w.connected && (channelId !in w.channels || !w.channels[channelId].textBased) ==> r == Failure(ChannelNotFound(channelId)))
      && (w.connected && channelId in w.channels && w.channels[channelId].textBased
          && w.channels[channelId].guildId.Some? && ManageMessages !in w.channels[channelId].botPerms
          ==> r == Failure(PermissionDenied("ManageMessages", channelId)))
      && (r.Success? ==>
            var c := w.channels[channelId];
            var doomed := Selection(Take(c.messages, limit), filterUserId, filterBots, now - TwoWeeksMs);
            && c.guildId.Some?
            && 1 <= |doomed| <= limit
            && r.value.calls == [Mutation(BulkDelete, [channelId], map["messages" := Strs(Ids(doomed)), "filterOld" := Bool(true)])]
            && (forall m | m in doomed :: m in c.messages && Wanted(m, filterUserId, filterBots, now - TwoWeeksMs))
            && r.value.out["deletedCount"] == Num(|doomed|))
  {
    if w.connected && channelId in w.channels && w.channels[channelId].textBased {
      var c := w.channels[channelId];
      SelectionIsWanted(Take(c.messages, limit), filterUserId, filterBots, now - TwoWeeksMs);
    }
  }

  /** When every fetched message is filtered out, nothing is deleted and the
      caller is told why. */
  lemma NothingLeftFails(w: World, channelId: string, limit: nat, filterUserId: Option<string>,
                         filterBots: Option<bool>, now: int)
    requires w.connected && channelId in w.channels && w.channels[channelId].textBased
    requires w.channels[channelId].guildId.None? || ManageMessages in w.channels[channelId].botPerms
    requires forall m | m in Take(w.channels[channelId].messages, limit) :: !Wanted(m, filterUserId, filterBots, now - TwoWeeksMs)
    ensures BulkDeletePlan(w, channelId, limit, filterUserId, filterBots, now) == Failure(Plain(NothingToDelete))
  {
    var c := w.channels[channelId];
    SelectionIsWanted(Take(c.messages, limit), filterUserId, filterBots, now - TwoWeeksMs);
    FilterNone(Take(c.messages, limit), (m: ChatMessage) => Wanted(m, filterUserId, filterBots, now - TwoWeeksMs));
  }

  function BanRow(b: BanEntry): Value {
    Obj(map["userId" := Str(b.userId), "username" := Str(b.username),
            "reason" := if b.reason.Some? then Str(b.reason.value) else Null])
  }

  function BanRows(bans: seq<BanEntry>): (r: seq<Value>)
    ensures |r| == |bans| && forall i | 0 <= i < |bans| :: r[i] == BanRow(bans[i])
  {
    seq(|bans|, i requires 0 <= i < |bans| => BanRow(bans[i]))
  }

  /** `get_bans`: the guild, BanMembers, then the first `limit` bans. */
  function GetBansPlan(w: World, guildId: string, limit: Option<nat>): (r: Result<Step, Fault>) {
    var _ :- Client(w);
    var g :- FetchGuild(w, guildId);
    var _ :- GuildPerm(g, BanMembers, guildId);
    var bans := Take(g.bans, limit.GetOr(100));
    Success(Step([], map["bans" := Arr(BanRows(bans)), "totalCount" := Num(|bans|)],
                 Some("Found " + NatToString(|bans|) + " banned user(s)")))
  }

  /** Bans are read only with BanMembers; the listing issues no mutation,
      holds the first min(`limit`, bans) bans (`limit` 100 by default), one
      row per ban in order with
      a missing reason as null, and `totalCount` is its length. */
  lemma GetBansGate(w: World, guildId: string, limit: Option<nat>)
    ensures var r := GetBansPlan(w, guildId, limit);
      && (r.Success? <==> w.connected && guildId in w.guilds && BanMembers in w.guilds[guildId].botPerms)
      && (w.connected && guildId in w.guilds && BanMembers !in w.guilds[guildId].botPerms
          ==> r == Failure(PermissionDenied("BanMembers", guildId)))
      && (r.Success? ==>
            var rows := r.value.out["bans"].items;
            && r.value.calls == []
            && |rows| <= limit.GetOr(100)
            && |rows| == Min(limit.GetOr(100), |w.guilds[guildId].bans|)
            && r.value.out["totalCount"] == Num(|rows|)
            && (forall i | 0 <= i < |rows| :: rows[i] == BanRow(w.guilds[guildId].bans[i]))
            && (forall i | 0 <= i < |rows| :: rows[i].fields["reason"] == Null <==> w.guilds[guildId].bans[i].reason.None?))
  {
  }

  const MemberHigher := "Cannot change nickname - member's highest role is equal to or higher than bot's"

  /** `nickname || null`. */
  function NicknameValue(nickname: Option<string>): Value {
    if Truthy(nickname) then Str(nickname.value) else Null
  }

  /** `set_nickname`: the guild, ManageNicknames, the member, then the role
      hierarchy, and only then `setNickname`. */
  function SetNicknamePlan(w: World, guildId: string, userId: string, nickname: Option<string>,
                           reason: Option<string>): (r: Result<Step, Fault>) {
    var _ :- Client(w);
    var g :- FetchGuild(w, guildId);
    var _ :- GuildPerm(g, ManageNicknames, guildId);
    if userId !in g.members then Failure(Plain("Member " + userId + " not found in server"))
    else if g.members[userId] >= g.botTopRole then Failure(Plain(MemberHigher))
    else
      Success(Step([Mutation(SetNickname, [guildId, userId], Put(map["nickname" := NicknameValue(nickname)], "reason", StrOf(reason)))],
                   map["userId" := Str(userId), "nickname" := NicknameValue(nickname)],
                   Some(if Truthy(nickname) then "Nickname set to \"" + nickname.value + "\" for user " + userId
                        else "Nickname removed for user " + userId)))
  }

  /** A member whose highest role is at or above the bot's is never renamed;
      otherwise exactly one `setNickname` is issued, and an empty or absent
      nickname is sent and reported as null. */
  lemma NicknameHierarchy(w: World, guildId: string, userId: string, nickname: Option<string>, reason: Option<string>)
    ensures var r := SetNicknamePlan(w, guildId, userId, nickname, reason);
      && (r.Success? ==>
            var g := w.guilds[guildId];
            && ManageNicknames in g.botPerms
            && userId in g.members && g.members[userId] < g.botTopRole
            && |r.value.calls| == 1 && r.value.calls[0].api == SetNickname
            && r.value.calls[0].payload["nickname"] == r.value.out["nickname"])
      && (w.connected && guildId in w.guilds && ManageNicknames in w.guilds[guildId].botPerms
          && userId in w.guilds[guildId].members && w.guilds[guildId].members[userId] >= w.guilds[guildId].botTopRole
          ==> r == Failure(Plain(MemberHigher)))
      && (r.Success? && (nickname.None? || nickname.value == []) ==> r.value.out["nickname"] == Null)
      && (r.Success? && nickname.Some? && nickname.value != [] ==> r.value.out["nickname"] == Str(nickname.value))
  {
    var r := SetNicknamePlan(w, guildId, userId, nickname, reason);
    if r.Success? {
      var v := NicknameValue(nickname);
      var payload := Put(map["nickname" := v], "reason", StrOf(reason));
      assert r.value.calls == [Mutation(SetNickname, [guildId, userId], payload)];
      assert payload["nickname"] == v;
      assert r.value.out["nickname"] == v;
    }
  }
}
