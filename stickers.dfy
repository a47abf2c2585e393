/** The sticker tools: listing a guild's custom stickers, and creating,
    modifying and deleting one. Every change needs ManageGuildExpressions;
    a creation also needs a guild that may hold custom stickers. Failures
    read "Error: " and are not flagged as errors. */
module Stickers {
  import opened Wrappers
  import opened Text
  import opened Errors
  import opened Platform

  const StickersTool := Tool("Error: ", false)

  /** The sticker format a `StickerFormatType` code is reported as. */
  function FormatName(code: int): string {
    if code == 1 then "PNG"
    else if code == 2 then "APNG"
    else if code == 3 then "LOTTIE"
    else "UNKNOWN"
  }

  /** Codes 1, 2 and 3 get three different names, and every other code,
      GIF's 4 included, is reported as unknown. */
  lemma FormatNames(code: int, code': int)
    ensures FormatName(code) == "UNKNOWN" <==> code !in {1, 2, 3}
    ensures FormatName(code) == FormatName(code') && FormatName(code) != "UNKNOWN" ==> code == code'
  {
  }

  /** `value || null` for an optional string. */
  function TextOrNull(s: Option<string>): (r: Value)
    ensures r == Null <==> !Truthy(s)
    ensures Truthy(s) ==> r == Str(s.value)
  {
    if Truthy(s) then Str(s.value) else Null
  }

  /** `value || ""` for an optional string. */
  function TextOrEmpty(s: Option<string>): (r: string)
    ensures Truthy(s) ==> r == s.value
    ensures !Truthy(s) ==> r == ""
  {
    if Truthy(s) then s.value else ""
  }

  function CreatorOf(u: Option<StickerUser>): (r: Option<Value>)
    ensures r.Some? <==> u.Some?
    ensures u.Some? ==> r.value == Obj(map["id" := Str(u.value.id), "username" := Str(u.value.username)])
  {
    if u.Some? then Some(Obj(map["id" := Str(u.value.id), "username" := Str(u.value.username)])) else None
  }

  /** One row of `list_guild_stickers`. */
  function StickerRow(s: Sticker): Value {
    Obj(Put(map["id" := Str(s.id), "name" := Str(s.name),
                "description" := TextOrNull(s.description), "tags" := TextOrNull(s.tags),
                "format" := Str(FormatName(s.format)), "available" := Bool(s.available != Some(false))],
            "creator", CreatorOf(s.creator)))
  }

  function StickerRows(stickers: seq<Sticker>): (r: seq<Value>)
    ensures |r| == |stickers| && forall i | 0 <= i < |stickers| :: r[i] == StickerRow(stickers[i])
  {
    seq(|stickers|, i requires 0 <= i < |stickers| => StickerRow(stickers[i]))
  }

  /** A listed sticker reports a missing or empty description or tag list
      as null, is available unless the platform says it is not, and names
      its creator only when the platform does. */
  lemma StickerRowFields(s: Sticker)
    ensures StickerRow(s).fields["description"] == Null <==> !Truthy(s.description)
    ensures StickerRow(s).fields["tags"] == Null <==> !Truthy(s.tags)
    ensures StickerRow(s).fields["available"] == Bool(false) <==> s.available == Some(false)
    ensures StickerRow(s).fields["format"] == Str(FormatName(s.format))
    ensures "creator" in StickerRow(s).fields <==> s.creator.Some?
  {
  }

  /** `list_guild_stickers`: no permission is asked for. */
  function ListStickersPlan(w: World, guildId: string): (r: Result<Step, Fault>) {
    var _ :- Client(w);
    var g :- FetchGuild(w, guildId);
    var rows := StickerRows(g.stickers);
    Success(Step([], map["stickers" := Arr(rows), "count" := Num(|rows|)],
                 Some("Found " + NatToString(|rows|) + " custom stickers in guild " + g.name)))
  }

  /** Any guild the bot sees can be listed, one row per sticker, in order. */
  lemma ListStickersRows(w: World, guildId: string)
    requires w.connected && guildId in w.guilds
    ensures var r := ListStickersPlan(w, guildId);
      && r.Success? && r.value.calls == []
      && r.value.out["stickers"] == Arr(StickerRows(w.guilds[guildId].stickers))
      && r.value.out["count"] == Num(|w.guilds[guildId].stickers|)
  {
  }

  /** `validateGuildAccess`, then ManageGuildExpressions for the bot
      member. */
  function StickerGuild(w: World, guildId: string): (r: Result<Guild, Fault>)
    ensures r.Success? <==> w.connected && guildId in w.guilds && ManageGuildExpressions in w.guilds[guildId].botPerms
    ensures r.Success? ==> r.value == w.guilds[guildId]
    ensures w.connected && guildId in w.guilds && ManageGuildExpressions !in w.guilds[guildId].botPerms
            ==> r == Failure(PermissionDenied("ManageGuildExpressions", guildId))
  {
    var _ :- Client(w);
    var g :- FetchGuild(w, guildId);
    var _ :- GuildPerm(g, ManageGuildExpressions, guildId);
    Success(g)
  }

  /** A guild may hold custom stickers when it is verified, partnered or
      boosted to level 2. */
  predicate StickerEligible(g: Guild) {
    "VERIFIED" in g.features || "PARTNERED" in g.features || g.premiumTier >= 2
  }

  const NotEligible := InvalidInput("guild", "Guild must be level 2 boosted, verified, or partnered to create stickers")

  /** The argument of `stickers.create`. */
  function CreateStickerData(name: string, description: string, tags: string, file: string, reason: Option<string>): (r: Fields)
    ensures r.Keys == {"file", "name", "tags", "description"} + (if reason.Some? then {"reason"} else {})
  {
    Put(map["file" := Str(file), "name" := Str(name), "tags" := Str(tags), "description" := Str(description)],
        "reason", StrOf(reason))
  }

  /** `create_sticker`: the permission, then the guild's eligibility, then
      one create call. */
  function CreateStickerPlan(w: World, guildId: string, name: string, description: string, tags: string, file: string,
                             reason: Option<string>): (r: Result<Step, Fault>)
  {
    var g :- StickerGuild(w, guildId);
    if !StickerEligible(g) then Failure(NotEligible)
    else
      Success(Step([Mutation(StickersCreate, [guildId], CreateStickerData(name, description, tags, file, reason))],
                   map["sticker" := Obj(map["name" := Str(name), "description" := Str(description), "tags" := Str(tags)])],
                   Some("Created sticker \"" + name + "\" in " + g.name)))
  }

  /** A sticker is created exactly when the bot may manage expressions in
      a guild that may hold stickers; the permission is checked first, and
      an ineligible guild is refused before any call is made. */
  lemma CreateStickerGates(w: World, guildId: string, name: string, description: string, tags: string, file: string,
                           reason: Option<string>)
    ensures var r := CreateStickerPlan(w, guildId, name, description, tags, file, reason);
      && (r.Success? <==> w.connected && guildId in w.guilds && ManageGuildExpressions in w.guilds[guildId].botPerms
                          && StickerEligible(w.guilds[guildId]))
      && (w.connected && guildId in w.guilds && ManageGuildExpressions !in w.guilds[guildId].botPerms ==>
            r == Failure(PermissionDenied("ManageGuildExpressions", guildId)))
      && (w.connected && guildId in w.guilds && ManageGuildExpressions in w.guilds[guildId].botPerms
          && !StickerEligible(w.guilds[guildId]) ==>
            r == Failure(InvalidInput("guild", "Guild must be level 2 boosted, verified, or partnered to create stickers")))
      && (r.Success? ==> r.value.calls == [Mutation(StickersCreate, [guildId], CreateStickerData(name, description, tags, file, reason))])
  {
  }

  /** The first sticker with the given id. */
  function FindSticker(stickers: seq<Sticker>, stickerId: string): (r: Option<Sticker>)
    ensures r.None? <==> forall s | s in stickers :: s.id != stickerId
    ensures r.Some? ==> r.value in stickers && r.value.id == stickerId
  {
    if stickers == [] then None
    else if stickers[0].id == stickerId then Some(stickers[0])
    else FindSticker(stickers[1..], stickerId)
  }

  const StickerNotFound := InvalidInput("stickerId", "Sticker not found")

  /** `stickers.fetch(stickerId)` followed by the not-found throw. */
  function FetchSticker(g: Guild, stickerId: string): (r: Result<Sticker, Fault>)
    ensures r.Success? <==> exists s | s in g.stickers :: s.id == stickerId
    ensures r.Success? ==> r.value in g.stickers && r.value.id == stickerId
    ensures r.Failure? ==> r.error == StickerNotFound
  {
    var found := FindSticker(g.stickers, stickerId);
    if found.Some? then Success(found.value) else Failure(StickerNotFound)
  }

  /** The argument of `sticker.edit`: only the given members. */
  function StickerChanges(name: Option<string>, description: Option<string>, tags: Option<string>, reason: Option<string>): (r: Fields)
    ensures "name" in r <==> name.Some?
    ensures "description" in r <==> description.Some?
    ensures "tags" in r <==> tags.Some?
    ensures "reason" in r <==> reason.Some?
    ensures r.Keys <= {"name", "description", "tags", "reason"}
    ensures name.Some? ==> r["name"] == Str(name.value)
    ensures description.Some? ==> r["description"] == Str(description.value)
    ensures tags.Some? ==> r["tags"] == Str(tags.value)
    ensures reason.Some? ==> r["reason"] == Str(reason.value)
  {
    Put(Put(Put(Put(map[], "name", StrOf(name)), "description", StrOf(description)), "tags", StrOf(tags)), "reason", StrOf(reason))
  }

  /** The sticker after an edit: the given members replace its own. */
  function Edited(s: Sticker, name: Option<string>, description: Option<string>, tags: Option<string>): Sticker {
    s.(name := name.GetOr(s.name),
       description := if description.Some? then description else s.description,
       tags := if tags.Some? then tags else s.tags)
  }

  /** `modify_sticker`: the permission, the sticker, then one edit. */
  function ModifyStickerPlan(w: World, guildId: string, stickerId: string, name: Option<string>, description: Option<string>,
                             tags: Option<string>, reason: Option<string>): (r: Result<Step, Fault>)
  {
    var g :- StickerGuild(w, guildId);
    var s :- FetchSticker(g, stickerId);
    var updated := Edited(s, name, description, tags);
    Success(Step([Mutation(StickerEdit, [guildId, stickerId], StickerChanges(name, description, tags, reason))],
                 map["sticker" := Obj(map["id" := Str(stickerId), "name" := Str(updated.name),
                                          "description" := Str(TextOrEmpty(updated.description)),
                                          "tags" := Str(TextOrEmpty(updated.tags))])],
                 Some("Updated sticker \"" + updated.name + "\" in " + g.name)))
  }

  /** An edit changes only the members it is given: the sticker keeps its
      id, format, availability and creator, and every member not given. */
  lemma EditedKeepsOthers(s: Sticker, name: Option<string>, description: Option<string>, tags: Option<string>)
    ensures var e := Edited(s, name, description, tags);
      && e.id == s.id && e.format == s.format && e.available == s.available && e.creator == s.creator
      && (name.None? ==> e.name == s.name) && (name.Some? ==> e.name == name.value)
      && (description.None? ==> e.description == s.description) && (description.Some? ==> e.description == description)
      && (tags.None? ==> e.tags == s.tags) && (tags.Some? ==> e.tags == tags)
      && (name.None? && description.None? && tags.None? ==> e == s)
  {
  }

  /** `delete_sticker`: the permission, the sticker, then one delete. */
  function DeleteStickerPlan(w: World, guildId: string, stickerId: string, reason: Option<string>): (r: Result<Step, Fault>) {
    var g :- StickerGuild(w, guildId);
    var s :- FetchSticker(g, stickerId);
    Success(Step([Mutation(StickerDelete, [guildId, stickerId], Put(map[], "reason", StrOf(reason)))],
                 map["stickerId" := Str(stickerId)],
                 Some("Deleted sticker \"" + s.name + "\" from " + g.name)))
  }

  /** Without ManageGuildExpressions nothing is created, edited or deleted,
      and the missing permission is what is reported. */
  lemma StickersNeedPermission(w: World, guildId: string, stickerId: string, name: Option<string>,
                               description: Option<string>, tags: Option<string>, reason: Option<string>)
    requires w.connected && guildId in w.guilds && ManageGuildExpressions !in w.guilds[guildId].botPerms
    ensures ModifyStickerPlan(w, guildId, stickerId, name, description, tags, reason)
            == Failure(PermissionDenied("ManageGuildExpressions", guildId))
    ensures DeleteStickerPlan(w, guildId, stickerId, reason) == Failure(PermissionDenied("ManageGuildExpressions", guildId))
  {
  }

  /** A sticker the guild does not hold is reported as an invalid
      `stickerId`; one it holds is edited or deleted by one call on it. */
  lemma StickerLookup(w: World, guildId: string, stickerId: string, name: Option<string>,
                      description: Option<string>, tags: Option<string>, reason: Option<string>)
    requires w.connected && guildId in w.guilds && ManageGuildExpressions in w.guilds[guildId].botPerms
    ensures (forall s | s in w.guilds[guildId].stickers :: s.id != stickerId) ==>
              && ModifyStickerPlan(w, guildId, stickerId, name, description, tags, reason)
                 == Failure(InvalidInput("stickerId", "Sticker not found"))
              && DeleteStickerPlan(w, guildId, stickerId, reason) == Failure(InvalidInput("stickerId", "Sticker not found"))
    ensures (exists s | s in w.guilds[guildId].stickers :: s.id == stickerId) ==>
              && ModifyStickerPlan(w, guildId, stickerId, name, description, tags, reason).Success?
              && DeleteStickerPlan(w, guildId, stickerId, reason).Success?
              && ModifyStickerPlan(w, guildId, stickerId, name, description, tags, reason).value.calls
                 == [Mutation(StickerEdit, [guildId, stickerId], StickerChanges(name, description, tags, reason))]
              && DeleteStickerPlan(w, guildId, stickerId, reason).value.calls
                 == [Mutation(StickerDelete, [guildId, stickerId], Put(map[], "reason", StrOf(reason)))]
  {
  }
}
