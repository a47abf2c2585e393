/** The auto-moderation tools: listing, reading, creating, modifying and
    deleting a guild's rules. Their failures read "Error: " and are not
    flagged as errors. */
module Automod {
  import opened Wrappers
  import opened Text
  import opened Errors
  import opened Platform

  const AutomodTool := Tool("Error: ", false)

  /** `validateGuildAccess`, then ManageGuild for the bot member. */
  function RulesGuild(w: World, guildId: string): (r: Result<Guild, Fault>)
    ensures r.Success? <==> w.connected && guildId in w.guilds && ManageGuild in w.guilds[guildId].botPerms
    ensures r.Success? ==> r.value == w.guilds[guildId]
    ensures w.connected && guildId in w.guilds && ManageGuild !in w.guilds[guildId].botPerms
            ==> r == Failure(PermissionDenied("ManageGuild", guildId))
  {
    var _ :- Client(w);
    var g :- FetchGuild(w, guildId);
    var _ :- GuildPerm(g, ManageGuild, guildId);
    Success(g)
  }

  const RuleNotFound := InvalidInput("ruleId", "Rule not found")

  /** `autoModerationRules.fetch(ruleId)` followed by the not-found throw. */
  function FetchRule(g: Guild, ruleId: string): (r: Result<Rule, Fault>)
    ensures r.Success? <==> ruleId in g.rules
    ensures r.Success? ==> r.value == g.rules[ruleId]
    ensures r.Failure? ==> r.error == RuleNotFound
  {
    if ruleId in g.rules then Success(g.rules[ruleId]) else Failure(RuleNotFound)
  }

  datatype TriggerKind = Keyword | Spam | KeywordPreset | MentionSpam | MemberProfile
  datatype EventKind = MessageSend | MemberUpdate
  datatype Preset = Profanity | SexualContent | Slurs
  datatype ActionKind = BlockMessage | SendAlertMessage | Timeout

  /** `AutoModerationRuleTriggerType`. */
  function TriggerCode(t: TriggerKind): int {
    match t
    case Keyword => 1
    case Spam => 3
    case KeywordPreset => 4
    case MentionSpam => 5
    case MemberProfile => 6
  }

  /** `AutoModerationRuleEventType`. */
  function EventCode(e: EventKind): int {
    match e
    case MessageSend => 1
    case MemberUpdate => 2
  }

  /** `AutoModerationRuleKeywordPresetType`. */
  function PresetCode(p: Preset): int {
    match p
    case Profanity => 1
    case SexualContent => 2
    case Slurs => 3
  }

  /** `AutoModerationActionType`. */
  function ActionCode(a: ActionKind): int {
    match a
    case BlockMessage => 1
    case SendAlertMessage => 2
    case Timeout => 3
  }

  function PresetCodes(ps: seq<Preset>): (r: seq<Value>)
    ensures |r| == |ps| && forall i | 0 <= i < |ps| :: r[i] == Num(PresetCode(ps[i]))
  {
    seq(|ps|, i requires 0 <= i < |ps| => Num(PresetCode(ps[i])))
  }

  /** An array member set when the array is given (an empty array is
      truthy too). */
  function ListOf(xs: Option<seq<string>>): (r: Option<Value>)
    ensures r.Some? <==> xs.Some?
    ensures r.Some? ==> r.value == Strs(xs.value)
  {
    if xs.Some? then Some(Strs(xs.value)) else None
  }

  /** A numeric member set when the number is truthy, that is non-zero. */
  function NonZero(n: Option<int>): (r: Option<Value>)
    ensures r.Some? <==> n.Some? && n.value != 0
    ensures r.Some? ==> r.value == Num(n.value)
  {
    if n.Some? && n.value != 0 then Some(Num(n.value)) else None
  }

  /** `create_automod_rule`'s `triggerMetadata`, written by trigger type. */
  function TriggerMetadata(t: TriggerKind, keywords: Option<seq<string>>, regexPatterns: Option<seq<string>>,
                           allowList: Option<seq<string>>, presets: Option<seq<Preset>>, mentionLimit: Option<int>): Fields {
    match t
    case Keyword =>
      Put(Put(Put(map[], "keywordFilter", ListOf(keywords)), "regexPatterns", ListOf(regexPatterns)), "allowList", ListOf(allowList))
    case KeywordPreset =>
      Put(Put(map[], "presets", if presets.Some? then Some(Arr(PresetCodes(presets.value))) else None), "allowList", ListOf(allowList))
    case MentionSpam =>
      Put(map[], "mentionTotalLimit", NonZero(mentionLimit))
    case Spam => map[]
    case MemberProfile => map[]
  }

  /** Each trigger type gets only its own members: a keyword rule the
      keyword lists given, a preset rule the presets (as their codes) and
      the allow list, a mention rule a non-zero limit, and the others none. */
  lemma TriggerMetadataByType(t: TriggerKind, keywords: Option<seq<string>>, regexPatterns: Option<seq<string>>,
                              allowList: Option<seq<string>>, presets: Option<seq<Preset>>, mentionLimit: Option<int>)
    ensures var m := TriggerMetadata(t, keywords, regexPatterns, allowList, presets, mentionLimit);
      && (t == Keyword ==>
            && ("keywordFilter" in m <==> keywords.Some?) && ("regexPatterns" in m <==> regexPatterns.Some?)
            && ("allowList" in m <==> allowList.Some?) && m.Keys <= {"keywordFilter", "regexPatterns", "allowList"})
      && (t == KeywordPreset ==>
            && ("presets" in m <==> presets.Some?) && ("allowList" in m <==> allowList.Some?)
            && m.Keys <= {"presets", "allowList"}
            && (presets.Some? ==> m["presets"] == Arr(PresetCodes(presets.value))))
      && (t == MentionSpam ==>
            && ("mentionTotalLimit" in m <==> mentionLimit.Some? && mentionLimit.value != 0)
            && m.Keys <= {"mentionTotalLimit"})
      && (t == Spam || t == MemberProfile ==> m == map[])
  {
  }

  /** One entry of `actions`. */
  datatype ActionInput = ActionInput(kind: ActionKind, channelId: Option<string>, durationSeconds: Option<int>,
                                     customMessage: Option<string>)

  /** `metadata` of an action, if any. */
  function ActionMetadata(a: ActionInput): Option<Value> {
    if a.kind == SendAlertMessage && Truthy(a.channelId) then
      Some(Obj(Put(map["channelId" := Str(a.channelId.value)], "customMessage",
                   if Truthy(a.customMessage) then Some(Str(a.customMessage.value)) else None)))
    else if a.kind == Timeout && a.durationSeconds.Some? && a.durationSeconds.value != 0 then
      Some(Obj(map["durationSeconds" := Num(a.durationSeconds.value)]))
    else None
  }

  /** The action as sent: its type code and its metadata, if any. */
  function ActionValue(a: ActionInput): Value {
    Obj(Put(map["type" := Num(ActionCode(a.kind))], "metadata", ActionMetadata(a)))
  }

  function ActionValues(actions: seq<ActionInput>): (r: seq<Value>)
    ensures |r| == |actions| && forall i | 0 <= i < |actions| :: r[i] == ActionValue(actions[i])
  {
    seq(|actions|, i requires 0 <= i < |actions| => ActionValue(actions[i]))
  }

  /** An alert with a channel carries that channel and the custom message
      when one is given; a timeout with a duration carries it; every other
      action carries no metadata. */
  lemma ActionMetadataCases(a: ActionInput)
    ensures var v := ActionValue(a).fields;
      && v["type"] == Num(ActionCode(a.kind))
      && ("metadata" in v <==> (a.kind == SendAlertMessage && Truthy(a.channelId))
                               || (a.kind == Timeout && a.durationSeconds.Some? && a.durationSeconds.value != 0))
      && (a.kind == SendAlertMessage && Truthy(a.channelId) ==>
            && v["metadata"].fields["channelId"] == Str(a.channelId.value)
            && ("customMessage" in v["metadata"].fields <==> Truthy(a.customMessage)))
      && (a.kind == Timeout && a.durationSeconds.Some? && a.durationSeconds.value != 0 ==>
            v["metadata"] == Obj(map["durationSeconds" := Num(a.durationSeconds.value)]))
      && (a.kind == BlockMessage ==> "metadata" !in v)
  {
  }

  /** The inputs of `create_automod_rule`. */
  datatype NewRule = NewRule(
    name: string,
    enabled: Option<bool>,
    trigger: TriggerKind,
    event: Option<EventKind>,
    keywords: Option<seq<string>>,
    regexPatterns: Option<seq<string>>,
    allowList: Option<seq<string>>,
    presets: Option<seq<Preset>>,
    mentionLimit: Option<int>,
    actions: seq<ActionInput>,
    exemptRoles: Option<seq<string>>,
    exemptChannels: Option<seq<string>>,
    reason: Option<string>)

  /** The argument of `autoModerationRules.create`: empty trigger metadata
      is left undefined. */
  function CreateRuleData(n: NewRule): Fields {
    Put(Put(RuleBase(n), "triggerMetadata", MetadataMember(n)), "reason", StrOf(n.reason))
  }

  /** `Object.keys(triggerMetadata).length > 0 ? triggerMetadata : undefined`. */
  function MetadataMember(n: NewRule): (r: Option<Value>)
    ensures var meta := TriggerMetadata(n.trigger, n.keywords, n.regexPatterns, n.allowList, n.presets, n.mentionLimit);
      (r.Some? <==> |meta| > 0) && (r.Some? ==> r.value == Obj(meta))
  {
    var meta := TriggerMetadata(n.trigger, n.keywords, n.regexPatterns, n.allowList, n.presets, n.mentionLimit);
    if |meta| > 0 then Some(Obj(meta)) else None
  }

  /** The members of the create call that are always present. */
  function RuleBase(n: NewRule): Fields {
    map[
      "name" := Str(n.name),
      "enabled" := Bool(n.enabled.GetOr(true)),
      "triggerType" := Num(TriggerCode(n.trigger)),
      "eventType" := Num(EventCode(n.event.GetOr(MessageSend))),
      "actions" := Arr(ActionValues(n.actions)),
      "exemptRoles" := Strs(n.exemptRoles.GetOr([])),
      "exemptChannels" := Strs(n.exemptChannels.GetOr([]))]
  }

  /** A new rule is enabled unless told otherwise. */
  lemma CreateRuleEnabled(n: NewRule)
    ensures CreateRuleData(n)["enabled"] == Bool(n.enabled != Some(false))
  {
    var b := RuleBase(n);
    PutPutKeeps(b, "triggerMetadata", MetadataMember(n), "reason", StrOf(n.reason), "enabled");
    assert b["enabled"] == Bool(n.enabled != Some(false));
  }

  /** A new rule fires on message send unless member updates are asked
      for. */
  lemma CreateRuleEvent(n: NewRule)
    ensures CreateRuleData(n)["eventType"] == Num(if n.event == Some(MemberUpdate) then 2 else 1)
  {
    DataEvent(n, CreateRuleData(n));
    DefaultEvent(n.event);
  }

  /** The event code when none is given is MESSAGE_SEND's. */
  lemma DefaultEvent(event: Option<EventKind>)
    ensures EventCode(event.GetOr(MessageSend)) == if event == Some(MemberUpdate) then 2 else 1
  {
  }

  /** The event type of the base survives the members written after it. */
  lemma DataEvent(n: NewRule, d: Fields)
    requires d == CreateRuleData(n)
    ensures "eventType" in d && d["eventType"] == Num(EventCode(n.event.GetOr(MessageSend)))
  {
    var b := RuleBase(n);
    PutPutKeeps(b, "triggerMetadata", MetadataMember(n), "reason", StrOf(n.reason), "eventType");
    assert b["eventType"] == Num(EventCode(n.event.GetOr(MessageSend)));
  }

  /** A new rule exempts no role and no channel unless told otherwise, and
      carries every action, in order. */
  lemma CreateRuleExempts(n: NewRule)
    ensures n.exemptRoles.None? ==> CreateRuleData(n)["exemptRoles"] == Arr([])
    ensures n.exemptChannels.None? ==> CreateRuleData(n)["exemptChannels"] == Arr([])
    ensures CreateRuleData(n)["actions"] == Arr(ActionValues(n.actions))
  {
    var b, m, r := RuleBase(n), MetadataMember(n), StrOf(n.reason);
    PutPutKeeps(b, "triggerMetadata", m, "reason", r, "exemptRoles");
    PutPutKeeps(b, "triggerMetadata", m, "reason", r, "exemptChannels");
    PutPutKeeps(b, "triggerMetadata", m, "reason", r, "actions");
    assert Strs([]) == Arr([]);
  }

  /** The trigger metadata is sent only when some member was written, so
      never for a spam or member-profile rule. */
  lemma CreateRuleMetadata(n: NewRule)
    ensures "triggerMetadata" in CreateRuleData(n)
            <==> |TriggerMetadata(n.trigger, n.keywords, n.regexPatterns, n.allowList, n.presets, n.mentionLimit)| > 0
    ensures "triggerMetadata" in CreateRuleData(n) ==>
              CreateRuleData(n)["triggerMetadata"]
              == Obj(TriggerMetadata(n.trigger, n.keywords, n.regexPatterns, n.allowList, n.presets, n.mentionLimit))
    ensures n.trigger == Spam || n.trigger == MemberProfile ==> "triggerMetadata" !in CreateRuleData(n)
  {
    var b := RuleBase(n);
    assert "triggerMetadata" !in b;
    MetadataKept(b, MetadataMember(n), StrOf(n.reason), CreateRuleData(n));
    NoMetadata(n.trigger, n.keywords, n.regexPatterns, n.allowList, n.presets, n.mentionLimit);
  }

  /** The metadata member, written after the base, survives the reason. */
  lemma MetadataKept(b: Fields, m: Option<Value>, reason: Option<Value>, d: Fields)
    requires "triggerMetadata" !in b && d == Put(Put(b, "triggerMetadata", m), "reason", reason)
    ensures ("triggerMetadata" in d <==> m.Some?) && (m.Some? ==> d["triggerMetadata"] == m.value)
  {
  }

  /** Spam and member-profile rules get no metadata members. */
  lemma NoMetadata(t: TriggerKind, keywords: Option<seq<string>>, regexPatterns: Option<seq<string>>,
                   allowList: Option<seq<string>>, presets: Option<seq<Preset>>, mentionLimit: Option<int>)
    ensures t == Spam || t == MemberProfile ==> TriggerMetadata(t, keywords, regexPatterns, allowList, presets, mentionLimit) == map[]
  {
  }

  /** `list_automod_rules`: the number of rules. */
  function ListRulesPlan(w: World, guildId: string): (r: Result<Step, Fault>) {
    var g :- RulesGuild(w, guildId);
    Success(Step([], map["count" := Num(|g.rules|)],
                 Some("Found " + NatToString(|g.rules|) + " auto-moderation rules in " + g.name)))
  }

  /** `get_automod_rule`. */
  function GetRulePlan(w: World, guildId: string, ruleId: string): (r: Result<Step, Fault>) {
    var g :- RulesGuild(w, guildId);
    var rule :- FetchRule(g, ruleId);
    Success(Step([], map["rule" := Obj(map["id" := Str(ruleId), "name" := Str(rule.name), "enabled" := Bool(rule.enabled),
                                            "triggerMetadata" := Obj(rule.triggerMetadata)])],
                 Some("Auto-mod rule \"" + rule.name + "\" details retrieved")))
  }

  /** `create_automod_rule`: ManageGuild, then one create call. */
  function CreateRulePlan(w: World, guildId: string, n: NewRule): (r: Result<Step, Fault>) {
    var g :- RulesGuild(w, guildId);
    Success(Step([Mutation(RulesCreate, [guildId], CreateRuleData(n))], map[],
                 Some("Created auto-mod rule \"" + n.name + "\" in " + g.name)))
  }

  /** The trigger metadata of a modified rule: a copy of the rule's own,
      with the given members written over it. */
  function MergeMetadata(current: Fields, keywords: Option<seq<string>>, regexPatterns: Option<seq<string>>,
                         allowList: Option<seq<string>>, mentionLimit: Option<int>): Fields {
    var m := Put(Put(current, "keywordFilter", ListOf(keywords)), "regexPatterns", ListOf(regexPatterns));
    Put(Put(m, "allowList", ListOf(allowList)), "mentionTotalLimit", NumOf(mentionLimit))
  }

  /** The inputs of `modify_automod_rule`. */
  datatype RuleChange = RuleChange(
    name: Option<string>,
    enabled: Option<bool>,
    keywords: Option<seq<string>>,
    regexPatterns: Option<seq<string>>,
    allowList: Option<seq<string>>,
    mentionLimit: Option<int>,
    actions: Option<seq<ActionInput>>,
    exemptRoles: Option<seq<string>>,
    exemptChannels: Option<seq<string>>,
    reason: Option<string>)

  predicate TouchesMetadata(c: RuleChange) {
    c.keywords.Some? || c.regexPatterns.Some? || c.allowList.Some? || c.mentionLimit.Some?
  }

  /** `updates`, member by member. */
  function RuleUpdates(rule: Rule, c: RuleChange): Fields {
    var u := Put(Put(map[], "name", StrOf(c.name)), "enabled", BoolOf(c.enabled));
    var u := Put(u, "triggerMetadata",
                 if TouchesMetadata(c) then Some(Obj(MergeMetadata(rule.triggerMetadata, c.keywords, c.regexPatterns, c.allowList, c.mentionLimit)))
                 else None);
    var u := Put(u, "actions", if c.actions.Some? then Some(Arr(ActionValues(c.actions.value))) else None);
    var u := Put(Put(u, "exemptRoles", ListOf(c.exemptRoles)), "exemptChannels", ListOf(c.exemptChannels));
    Put(u, "reason", StrOf(c.reason))
  }

  /** `modify_automod_rule`: ManageGuild, the rule, then one edit. */
  function ModifyRulePlan(w: World, guildId: string, ruleId: string, c: RuleChange): (r: Result<Step, Fault>) {
    var g :- RulesGuild(w, guildId);
    var rule :- FetchRule(g, ruleId);
    Success(Step([Mutation(RuleEdit, [guildId, ruleId], RuleUpdates(rule, c))], map[],
                 Some("Updated auto-mod rule \"" + c.name.GetOr(rule.name) + "\" in " + g.name)))
  }

  /** The merge overrides exactly the given members and keeps every other
      member of the rule's metadata as it was. */
  lemma MergeKeepsOthers(current: Fields, keywords: Option<seq<string>>, regexPatterns: Option<seq<string>>,
                         allowList: Option<seq<string>>, mentionLimit: Option<int>)
    ensures var m := MergeMetadata(current, keywords, regexPatterns, allowList, mentionLimit);
      && (forall k | k in current && k !in {"keywordFilter", "regexPatterns", "allowList", "mentionTotalLimit"} :: k in m && m[k] == current[k])
      && (keywords.Some? ==> m["keywordFilter"] == Strs(keywords.value))
      && (keywords.None? && "keywordFilter" in current ==> m["keywordFilter"] == current["keywordFilter"])
      && (regexPatterns.Some? ==> m["regexPatterns"] == Strs(regexPatterns.value))
      && (regexPatterns.None? && "regexPatterns" in current ==> m["regexPatterns"] == current["regexPatterns"])
      && (allowList.Some? ==> m["allowList"] == Strs(allowList.value))
      && (allowList.None? && "allowList" in current ==> m["allowList"] == current["allowList"])
      && (mentionLimit.Some? ==> m["mentionTotalLimit"] == Num(mentionLimit.value))
      && (mentionLimit.None? && "mentionTotalLimit" in current ==> m["mentionTotalLimit"] == current["mentionTotalLimit"])
      && m.Keys == current.Keys + (if keywords.Some? then {"keywordFilter"} else {})
                            + (if regexPatterns.Some? then {"regexPatterns"} else {})
                            + (if allowList.Some? then {"allowList"} else {})
                            + (if mentionLimit.Some? then {"mentionTotalLimit"} else {})
  {
    var kw, rp, al, ml := ListOf(keywords), ListOf(regexPatterns), ListOf(allowList), NumOf(mentionLimit);
    var m1 := Put(Put(current, "keywordFilter", kw), "regexPatterns", rp);
    var m := MergeMetadata(current, keywords, regexPatterns, allowList, mentionLimit);
    MergeOthers(current, kw, rp, al, ml, m1, m);
    MergeValues(current, kw, rp, al, ml, m1, m);
    MergeKeys(current, kw, rp, al, ml, m1, m);
  }

  /** Members the merge does not write stay as they were. */
  lemma MergeOthers(current: Fields, kw: Option<Value>, rp: Option<Value>, al: Option<Value>, ml: Option<Value>, m1: Fields, m: Fields)
    requires m1 == Put(Put(current, "keywordFilter", kw), "regexPatterns", rp)
    requires m == Put(Put(m1, "allowList", al), "mentionTotalLimit", ml)
    ensures forall k | k in current && k !in {"keywordFilter", "regexPatterns", "allowList", "mentionTotalLimit"} :: k in m && m[k] == current[k]
  {
    forall k | k in current && k !in {"keywordFilter", "regexPatterns", "allowList", "mentionTotalLimit"}
      ensures k in m && m[k] == current[k]
    {
      PutPutKeeps(current, "keywordFilter", kw, "regexPatterns", rp, k);
      PutPutKeeps(m1, "allowList", al, "mentionTotalLimit", ml, k);
    }
  }

  /** Each given member is written; an absent one keeps the rule's own. */
  lemma MergeValues(current: Fields, kw: Option<Value>, rp: Option<Value>, al: Option<Value>, ml: Option<Value>, m1: Fields, m: Fields)
    requires m1 == Put(Put(current, "keywordFilter", kw), "regexPatterns", rp)
    requires m == Put(Put(m1, "allowList", al), "mentionTotalLimit", ml)
    ensures kw.Some? ==> "keywordFilter" in m && m["keywordFilter"] == kw.value
    ensures kw.None? && "keywordFilter" in current ==> "keywordFilter" in m && m["keywordFilter"] == current["keywordFilter"]
    ensures rp.Some? ==> "regexPatterns" in m && m["regexPatterns"] == rp.value
    ensures rp.None? && "regexPatterns" in current ==> "regexPatterns" in m && m["regexPatterns"] == current["regexPatterns"]
    ensures al.Some? ==> "allowList" in m && m["allowList"] == al.value
    ensures al.None? && "allowList" in current ==> "allowList" in m && m["allowList"] == current["allowList"]
    ensures ml.Some? ==> "mentionTotalLimit" in m && m["mentionTotalLimit"] == ml.value
    ensures ml.None? && "mentionTotalLimit" in current ==> "mentionTotalLimit" in m && m["mentionTotalLimit"] == current["mentionTotalLimit"]
  {
    PutPutKeeps(m1, "allowList", al, "mentionTotalLimit", ml, "keywordFilter");
    PutPutKeeps(m1, "allowList", al, "mentionTotalLimit", ml, "regexPatterns");
  }

  lemma MergeKeys(current: Fields, kw: Option<Value>, rp: Option<Value>, al: Option<Value>, ml: Option<Value>, m1: Fields, m: Fields)
    requires m1 == Put(Put(current, "keywordFilter", kw), "regexPatterns", rp)
    requires m == Put(Put(m1, "allowList", al), "mentionTotalLimit", ml)
    ensures m.Keys == current.Keys + (if kw.Some? then {"keywordFilter"} else {})
                                   + (if rp.Some? then {"regexPatterns"} else {})
                                   + (if al.Some? then {"allowList"} else {})
                                   + (if ml.Some? then {"mentionTotalLimit"} else {})
  {
  }

  /** The updates hold trigger metadata only when one of the four
      metadata inputs is given, and then the merge of the rule's own; they
      hold any other member only when its input is given. */
  lemma RuleUpdatesFields(rule: Rule, c: RuleChange)
    ensures "triggerMetadata" in RuleUpdates(rule, c) <==> TouchesMetadata(c)
    ensures TouchesMetadata(c) ==>
              RuleUpdates(rule, c)["triggerMetadata"]
              == Obj(MergeMetadata(rule.triggerMetadata, c.keywords, c.regexPatterns, c.allowList, c.mentionLimit))
    ensures "name" in RuleUpdates(rule, c) <==> c.name.Some?
    ensures "enabled" in RuleUpdates(rule, c) <==> c.enabled.Some?
    ensures "actions" in RuleUpdates(rule, c) <==> c.actions.Some?
    ensures "exemptRoles" in RuleUpdates(rule, c) <==> c.exemptRoles.Some?
    ensures "exemptChannels" in RuleUpdates(rule, c) <==> c.exemptChannels.Some?
    ensures "reason" in RuleUpdates(rule, c) <==> c.reason.Some?
    ensures c.name.Some? ==> RuleUpdates(rule, c)["name"] == Str(c.name.value)
    ensures c.enabled.Some? ==> RuleUpdates(rule, c)["enabled"] == Bool(c.enabled.value)
    ensures c.actions.Some? ==> RuleUpdates(rule, c)["actions"] == Arr(ActionValues(c.actions.value))
    ensures c.exemptRoles.Some? ==> RuleUpdates(rule, c)["exemptRoles"] == Strs(c.exemptRoles.value)
    ensures c.exemptChannels.Some? ==> RuleUpdates(rule, c)["exemptChannels"] == Strs(c.exemptChannels.value)
    ensures c.reason.Some? ==> RuleUpdates(rule, c)["reason"] == Str(c.reason.value)
    ensures RuleUpdates(rule, c).Keys
            <= {"name", "enabled", "triggerMetadata", "actions", "exemptRoles", "exemptChannels", "reason"}
  {
    var t := if TouchesMetadata(c) then Some(Obj(MergeMetadata(rule.triggerMetadata, c.keywords, c.regexPatterns, c.allowList, c.mentionLimit)))
             else None;
    var a := if c.actions.Some? then Some(Arr(ActionValues(c.actions.value))) else None;
    var u1 := Put(Put(map[], "name", StrOf(c.name)), "enabled", BoolOf(c.enabled));
    var u2 := Put(Put(u1, "triggerMetadata", t), "actions", a);
    var u3 := Put(Put(u2, "exemptRoles", ListOf(c.exemptRoles)), "exemptChannels", ListOf(c.exemptChannels));
    UpdatesFrom(c, t, a, u1, u2, u3, RuleUpdates(rule, c));
  }

  lemma UpdatesFrom(c: RuleChange, t: Option<Value>, a: Option<Value>, u1: Fields, u2: Fields, u3: Fields, u: Fields)
    requires u1 == Put(Put(map[], "name", StrOf(c.name)), "enabled", BoolOf(c.enabled))
    requires u2 == Put(Put(u1, "triggerMetadata", t), "actions", a)
    requires u3 == Put(Put(u2, "exemptRoles", ListOf(c.exemptRoles)), "exemptChannels", ListOf(c.exemptChannels))
    requires u == Put(u3, "reason", StrOf(c.reason))
    ensures "triggerMetadata" in u <==> t.Some?
    ensures t.Some? ==> u["triggerMetadata"] == t.value
    ensures "name" in u <==> c.name.Some?
    ensures "enabled" in u <==> c.enabled.Some?
    ensures "actions" in u <==> a.Some?
    ensures "exemptRoles" in u <==> c.exemptRoles.Some?
    ensures "exemptChannels" in u <==> c.exemptChannels.Some?
    ensures "reason" in u <==> c.reason.Some?
    ensures c.name.Some? ==> u["name"] == Str(c.name.value)
    ensures c.enabled.Some? ==> u["enabled"] == Bool(c.enabled.value)
    ensures a.Some? ==> u["actions"] == a.value
    ensures c.exemptRoles.Some? ==> u["exemptRoles"] == Strs(c.exemptRoles.value)
    ensures c.exemptChannels.Some? ==> u["exemptChannels"] == Strs(c.exemptChannels.value)
    ensures c.reason.Some? ==> u["reason"] == Str(c.reason.value)
    ensures u.Keys <= {"name", "enabled", "triggerMetadata", "actions", "exemptRoles", "exemptChannels", "reason"}
  {
    UpdatesHead(c, u1);
    UpdatesMiddle(u1, t, a, u2);
    UpdatesTail(c, u2, u3, u);
  }

  lemma UpdatesHead(c: RuleChange, u1: Fields)
    requires u1 == Put(Put(map[], "name", StrOf(c.name)), "enabled", BoolOf(c.enabled))
    ensures u1.Keys <= {"name", "enabled"}
    ensures ("name" in u1 <==> c.name.Some?) && ("enabled" in u1 <==> c.enabled.Some?)
    ensures c.name.Some? ==> u1["name"] == Str(c.name.value)
    ensures c.enabled.Some? ==> u1["enabled"] == Bool(c.enabled.value)
  {
  }

  lemma UpdatesMiddle(u1: Fields, t: Option<Value>, a: Option<Value>, u2: Fields)
    requires u1.Keys <= {"name", "enabled"}
    requires u2 == Put(Put(u1, "triggerMetadata", t), "actions", a)
    ensures u2.Keys <= {"name", "enabled", "triggerMetadata", "actions"}
    ensures ("name" in u2 <==> "name" in u1) && ("enabled" in u2 <==> "enabled" in u1)
    ensures ("triggerMetadata" in u2 <==> t.Some?) && ("actions" in u2 <==> a.Some?)
    ensures t.Some? ==> u2["triggerMetadata"] == t.value
    ensures a.Some? ==> u2["actions"] == a.value
    ensures "name" in u1 ==> u2["name"] == u1["name"]
    ensures "enabled" in u1 ==> u2["enabled"] == u1["enabled"]
  {
    PutPutKeeps(u1, "triggerMetadata", t, "actions", a, "name");
    PutPutKeeps(u1, "triggerMetadata", t, "actions", a, "enabled");
  }

  lemma UpdatesTail(c: RuleChange, u2: Fields, u3: Fields, u: Fields)
    requires u2.Keys <= {"name", "enabled", "triggerMetadata", "actions"}
    requires u3 == Put(Put(u2, "exemptRoles", ListOf(c.exemptRoles)), "exemptChannels", ListOf(c.exemptChannels))
    requires u == Put(u3, "reason", StrOf(c.reason))
    ensures forall k | k in {"name", "enabled", "triggerMetadata", "actions"} :: (k in u <==> k in u2) && (k in u2 ==> u[k] == u2[k])
    ensures ("exemptRoles" in u <==> c.exemptRoles.Some?) && ("exemptChannels" in u <==> c.exemptChannels.Some?)
    ensures "reason" in u <==> c.reason.Some?
    ensures c.exemptRoles.Some? ==> u["exemptRoles"] == Strs(c.exemptRoles.value)
    ensures c.exemptChannels.Some? ==> u["exemptChannels"] == Strs(c.exemptChannels.value)
    ensures c.reason.Some? ==> u["reason"] == Str(c.reason.value)
    ensures u.Keys <= u2.Keys + {"exemptRoles", "exemptChannels", "reason"}
  {
  }

  /** An edit of a rule the guild holds is one call on that rule, whose
      updates are those of the change. */
  lemma ModifyRuleCall(w: World, guildId: string, ruleId: string, c: RuleChange)
    ensures var r := ModifyRulePlan(w, guildId, ruleId, c);
      && (r.Success? <==> w.connected && guildId in w.guilds && ManageGuild in w.guilds[guildId].botPerms
                          && ruleId in w.guilds[guildId].rules)
      && (r.Success? ==> r.value.calls == [Mutation(RuleEdit, [guildId, ruleId], RuleUpdates(w.guilds[guildId].rules[ruleId], c))])
  {
  }

  /** `delete_automod_rule`: ManageGuild, the rule, then one delete. */
  function DeleteRulePlan(w: World, guildId: string, ruleId: string, reason: Option<string>): (r: Result<Step, Fault>) {
    var g :- RulesGuild(w, guildId);
    var rule :- FetchRule(g, ruleId);
    Success(Step([Mutation(RuleDelete, [guildId, ruleId], Put(map[], "reason", StrOf(reason)))], map["ruleId" := Str(ruleId)],
                 Some("Deleted auto-mod rule \"" + rule.name + "\" from " + g.name)))
  }

  /** Every rule tool needs ManageGuild before it reads or changes a rule,
      and reports its absence the same way. */
  lemma RulesNeedManageGuild(w: World, guildId: string, ruleId: string, n: NewRule, c: RuleChange, reason: Option<string>)
    requires w.connected && guildId in w.guilds && ManageGuild !in w.guilds[guildId].botPerms
    ensures ListRulesPlan(w, guildId) == Failure(PermissionDenied("ManageGuild", guildId))
    ensures GetRulePlan(w, guildId, ruleId) == Failure(PermissionDenied("ManageGuild", guildId))
    ensures CreateRulePlan(w, guildId, n) == Failure(PermissionDenied("ManageGuild", guildId))
    ensures ModifyRulePlan(w, guildId, ruleId, c) == Failure(PermissionDenied("ManageGuild", guildId))
    ensures DeleteRulePlan(w, guildId, ruleId, reason) == Failure(PermissionDenied("ManageGuild", guildId))
  {
  }

  /** A rule the guild does not hold is reported as an invalid `ruleId`,
      and nothing is edited or deleted. */
  lemma MissingRule(w: World, guildId: string, ruleId: string, c: RuleChange, reason: Option<string>)
    requires w.connected && guildId in w.guilds && ManageGuild in w.guilds[guildId].botPerms
    requires ruleId !in w.guilds[guildId].rules
    ensures GetRulePlan(w, guildId, ruleId) == Failure(InvalidInput("ruleId", "Rule not found"))
    ensures ModifyRulePlan(w, guildId, ruleId, c) == Failure(InvalidInput("ruleId", "Rule not found"))
    ensures DeleteRulePlan(w, guildId, ruleId, reason) == Failure(InvalidInput("ruleId", "Rule not found"))
  {
  }
}
