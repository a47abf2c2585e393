/** The application-command tools: listing, reading, creating, modifying,
    deleting and bulk-overwriting the slash and context-menu commands of a
    guild, or the application's global ones when no guild is named. Their
    failures read "Error: " and are not flagged as errors. */
module Commands {
  import opened Wrappers
  import opened Text
  import opened Errors
  import opened Platform

  const CommandsTool := Tool("Error: ", false)

  /** `ApplicationCommandType`: a slash command, a user context-menu command
      or a message context-menu command. */
  datatype CommandType = ChatInput | UserMenu | MessageMenu

  function TypeCode(t: CommandType): int {
    match t
    case ChatInput => 1
    case UserMenu => 2
    case MessageMenu => 3
  }

  /** `ApplicationCommandType[code]`, the enum's reverse mapping: undefined
      for a code it does not know. */
  function TypeName(code: int): (r: Option<string>)
    ensures r.Some? <==> 1 <= code <= 4
  {
    if code == 1 then Some("ChatInput")
    else if code == 2 then Some("User")
    else if code == 3 then Some("Message")
    else if code == 4 then Some("PrimaryEntryPoint")
    else None
  }

  /** `ApplicationCommandOptionType`. */
  datatype OptionKind =
    | Subcommand | SubcommandGroup | StringOption | IntegerOption | BooleanOption | UserOption
    | ChannelOption | RoleOption | MentionableOption | NumberOption | AttachmentOption

  function OptionCode(k: OptionKind): int {
    match k
    case Subcommand => 1
    case SubcommandGroup => 2
    case StringOption => 3
    case IntegerOption => 4
    case BooleanOption => 5
    case UserOption => 6
    case ChannelOption => 7
    case RoleOption => 8
    case MentionableOption => 9
    case NumberOption => 10
    case AttachmentOption => 11
  }

  /** `ApplicationCommandOptionType[code]`. */
  function OptionTypeName(code: int): (r: Option<string>)
    ensures r.Some? <==> 1 <= code <= 11
  {
    if code == 1 then Some("Subcommand")
    else if code == 2 then Some("SubcommandGroup")
    else if code == 3 then Some("String")
    else if code == 4 then Some("Integer")
    else if code == 5 then Some("Boolean")
    else if code == 6 then Some("User")
    else if code == 7 then Some("Channel")
    else if code == 8 then Some("Role")
    else if code == 9 then Some("Mentionable")
    else if code == 10 then Some("Number")
    else if code == 11 then Some("Attachment")
    else None
  }

  /** Every option type the tools accept is sent as a code the reverse
      mapping names, and no two types share a code. */
  lemma OptionCodesNamed(k: OptionKind, k': OptionKind)
    ensures OptionTypeName(OptionCode(k)).Some?
    ensures OptionCode(k) == OptionCode(k') ==> k == k'
  {
  }

  datatype ChoiceValue = TextChoice(s: string) | NumberChoice(n: int)

  /** One `choices` entry of an option. */
  datatype Choice = Choice(name: string, value: ChoiceValue)

  /** One entry of the `options` input. */
  datatype OptionInput = OptionInput(kind: OptionKind, name: string, description: string,
                                     required: Option<bool>, choices: Option<seq<Choice>>)

  function ChoiceValueOf(c: Choice): Value {
    Obj(map["name" := Str(c.name),
            "value" := match c.value case TextChoice(s) => Str(s) case NumberChoice(n) => Num(n)])
  }

  function ChoiceValues(cs: seq<Choice>): (r: seq<Value>)
    ensures |r| == |cs| && forall i | 0 <= i < |cs| :: r[i] == ChoiceValueOf(cs[i])
  {
    seq(|cs|, i requires 0 <= i < |cs| => ChoiceValueOf(cs[i]))
  }

  /** An option as sent: its type code, name and description, and
      `required` and `choices` when given. */
  function OptionValue(o: OptionInput): Value {
    Obj(Put(Put(map["type" := Num(OptionCode(o.kind)), "name" := Str(o.name), "description" := Str(o.description)],
                "required", BoolOf(o.required)),
            "choices", if o.choices.Some? then Some(Arr(ChoiceValues(o.choices.value))) else None))
  }

  function OptionValues(os: seq<OptionInput>): (r: seq<Value>)
    ensures |r| == |os| && forall i | 0 <= i < |os| :: r[i] == OptionValue(os[i])
  {
    seq(|os|, i requires 0 <= i < |os| => OptionValue(os[i]))
  }

  /** Where a handler's command calls go: the commands it sees, the
      `scope` it reports, and the ids a call targets before the command's
      own. */
  datatype Registry = Registry(commands: seq<Command>, scope: string, target: seq<string>)

  /** `if (guildId)`: `validateGuildAccess` then `guild.commands`, else
      `client.application.commands`. */
  function RegistryOf(w: World, guildId: Option<string>): (r: Result<Registry, Fault>)
    ensures r.Success? <==> w.connected && (Truthy(guildId) ==> guildId.value in w.guilds)
    ensures r.Success? && Truthy(guildId) ==>
              r.value == Registry(w.guilds[guildId.value].commands, "guild:" + w.guilds[guildId.value].name, [guildId.value])
    ensures r.Success? && !Truthy(guildId) ==>
              r.value == Registry(w.globalCommands, "global", [])
    ensures w.connected && Truthy(guildId) && guildId.value !in w.guilds ==> r == Failure(GuildNotFound(guildId.value))
  {
    var _ :- Client(w);
    if Truthy(guildId) then
      var g :- FetchGuild(w, guildId.value);
      Success(Registry(g.commands, "guild:" + g.name, [guildId.value]))
    else
      Success(Registry(w.globalCommands, "global", []))
  }

  /** The first command with the given id. */
  function FindCommand(commands: seq<Command>, commandId: string): (r: Option<Command>)
    ensures r.None? <==> forall c | c in commands :: c.id != commandId
    ensures r.Some? ==> r.value in commands && r.value.id == commandId
  {
    if commands == [] then None
    else if commands[0].id == commandId then Some(commands[0])
    else FindCommand(commands[1..], commandId)
  }

  /** `commands.fetch(commandId)` followed by the not-found throw. */
  function FetchCommand(reg: Registry, commandId: string): (r: Result<Command, Fault>)
    ensures r.Success? <==> exists c | c in reg.commands :: c.id == commandId
    ensures r.Success? ==> r.value in reg.commands && r.value.id == commandId
    ensures r.Failure? ==> r.error == InvalidInput("commandId", "Command not found")
  {
    var found := FindCommand(reg.commands, commandId);
    if found.Some? then Success(found.value) else Failure(InvalidInput("commandId", "Command not found"))
  }

  /** `defaultMemberPermissions?.toString() || null`. */
  function PermissionsOrNull(p: Option<string>): (r: Value)
    ensures r == Null <==> !Truthy(p)
  {
    if Truthy(p) then Str(p.value) else Null
  }

  /** One row of `list_application_commands`. */
  function CommandRow(c: Command): Value {
    Obj(Put(map["id" := Str(c.id), "name" := Str(c.name), "description" := Str(c.description),
                "defaultMemberPermissions" := PermissionsOrNull(c.defaultMemberPermissions)],
            "type", StrOf(TypeName(c.kind))))
  }

  function CommandRows(commands: seq<Command>): (r: seq<Value>)
    ensures |r| == |commands| && forall i | 0 <= i < |commands| :: r[i] == CommandRow(commands[i])
  {
    seq(|commands|, i requires 0 <= i < |commands| => CommandRow(commands[i]))
  }

  /** `list_application_commands`. */
  function ListCommandsPlan(w: World, guildId: Option<string>): (r: Result<Step, Fault>) {
    var reg :- RegistryOf(w, guildId);
    var rows := CommandRows(reg.commands);
    Success(Step([], map["commands" := Arr(rows), "count" := Num(|rows|), "scope" := Str(reg.scope)],
                 Some("Found " + NatToString(|rows|) + " application commands (" + reg.scope + ")")))
  }

  /** The listing has one row per command of the scope, in order, and
      reports that scope. */
  lemma ListCommandsRows(w: World, guildId: Option<string>)
    requires w.connected && (Truthy(guildId) ==> guildId.value in w.guilds)
    ensures var r := ListCommandsPlan(w, guildId);
      && r.Success? && r.value.calls == []
      && r.value.out["scope"] == Str(if Truthy(guildId) then "guild:" + w.guilds[guildId.value].name else "global")
      && r.value.out["count"] == Num(|r.value.out["commands"].items|)
      && r.value.out["commands"]
         == Arr(CommandRows(if Truthy(guildId) then w.guilds[guildId.value].commands else w.globalCommands))
  {
  }

  /** One option in `get_application_command`'s details: `required` and
      `choices` default to false and []. */
  function StoredOptionValue(o: StoredOption): Value {
    Obj(Put(map["name" := Str(o.name), "description" := Str(o.description),
                "required" := Bool(o.required == Some(true)),
                "choices" := Arr(o.choices.GetOr([]))],
            "type", StrOf(OptionTypeName(o.kind))))
  }

  function StoredOptionValues(os: seq<StoredOption>): (r: seq<Value>)
    ensures |r| == |os| && forall i | 0 <= i < |os| :: r[i] == StoredOptionValue(os[i])
  {
    seq(|os|, i requires 0 <= i < |os| => StoredOptionValue(os[i]))
  }

  function CommandDetails(c: Command): Fields {
    var d := map["id" := Str(c.id), "name" := Str(c.name), "description" := Str(c.description),
                 "options" := Arr(StoredOptionValues(c.options)),
                 "defaultMemberPermissions" := PermissionsOrNull(c.defaultMemberPermissions)];
    Put(Put(Put(d, "type", StrOf(TypeName(c.kind))), "dmPermission", BoolOf(c.dmPermission)), "nsfw", BoolOf(c.nsfw))
  }

  /** `get_application_command`. */
  function GetCommandPlan(w: World, commandId: string, guildId: Option<string>): (r: Result<Step, Fault>) {
    var reg :- RegistryOf(w, guildId);
    var c :- FetchCommand(reg, commandId);
    Success(Step([], map["command" := Obj(CommandDetails(c))],
                 Some("Application command \"" + c.name + "\" details retrieved")))
  }

  /** An option's details default an absent `required` to false and absent
      `choices` to none. */
  lemma StoredOptionDefaults(o: StoredOption)
    ensures o.required.None? ==> StoredOptionValue(o).fields["required"] == Bool(false)
    ensures o.choices.None? ==> StoredOptionValue(o).fields["choices"] == Arr([])
    ensures o.choices.Some? ==> StoredOptionValue(o).fields["choices"] == Arr(o.choices.value)
  {
  }

  /** The inputs of `create_application_command`. */
  datatype NewCommand = NewCommand(
    name: string,
    description: string,
    kind: Option<CommandType>,
    options: Option<seq<OptionInput>>,
    defaultMemberPermissions: Option<string>,
    dmPermission: Option<bool>,
    nsfw: Option<bool>)

  /** `type = "CHAT_INPUT"`. */
  function KindOf(n: NewCommand): CommandType {
    n.kind.GetOr(ChatInput)
  }

  /** The members of `commandData` that are always present: only a slash
      command keeps its description. */
  function CommandBase(n: NewCommand): Fields {
    map["name" := Str(n.name),
        "description" := Str(if KindOf(n) == ChatInput then n.description else ""),
        "type" := Num(TypeCode(KindOf(n)))]
  }

  /** `commandData.options`, for a slash command given options. */
  function OptionsMember(n: NewCommand): (r: Option<Value>)
    ensures r.Some? <==> KindOf(n) == ChatInput && n.options.Some?
    ensures r.Some? ==> r.value == Arr(OptionValues(n.options.value))
  {
    if KindOf(n) == ChatInput && n.options.Some? then Some(Arr(OptionValues(n.options.value))) else None
  }

  /** `commandData`, written member by member. */
  function CommandData(n: NewCommand): Fields {
    var d := Put(CommandBase(n), "options", OptionsMember(n));
    var d := Put(d, "defaultMemberPermissions", StrOf(n.defaultMemberPermissions));
    Put(Put(d, "dmPermission", BoolOf(n.dmPermission)), "nsfw", BoolOf(n.nsfw))
  }

  /** A command is a slash command unless told otherwise, and only a slash
      command is sent its description: the others are sent "". */
  lemma CommandDataType(n: NewCommand)
    ensures n.kind.None? ==> CommandData(n)["type"] == Num(1)
    ensures n.kind.Some? ==> CommandData(n)["type"] == Num(TypeCode(n.kind.value))
    ensures KindOf(n) == ChatInput ==> CommandData(n)["description"] == Str(n.description)
    ensures KindOf(n) != ChatInput ==> CommandData(n)["description"] == Str("")
    ensures CommandData(n)["name"] == Str(n.name)
  {
    var b := CommandBase(n);
    BaseKept(n, b, CommandData(n), "name");
    BaseKept(n, b, CommandData(n), "description");
    BaseKept(n, b, CommandData(n), "type");
  }

  /** The members of the base survive the optional ones written after it. */
  lemma BaseKept(n: NewCommand, b: Fields, d: Fields, k: string)
    requires b == CommandBase(n) && d == CommandData(n) && k in {"name", "description", "type"}
    ensures k in d && d[k] == b[k]
  {
    var o := Put(Put(b, "options", OptionsMember(n)), "defaultMemberPermissions", StrOf(n.defaultMemberPermissions));
    PutPutKeeps(b, "options", OptionsMember(n), "defaultMemberPermissions", StrOf(n.defaultMemberPermissions), k);
    PutPutKeeps(o, "dmPermission", BoolOf(n.dmPermission), "nsfw", BoolOf(n.nsfw), k);
  }

  /** Options are sent only with a slash command, and then every one, in
      order; the three flags are sent exactly when given. */
  lemma CommandDataMembers(n: NewCommand)
    ensures "options" in CommandData(n) <==> KindOf(n) == ChatInput && n.options.Some?
    ensures "options" in CommandData(n) ==> CommandData(n)["options"] == Arr(OptionValues(n.options.value))
    ensures "defaultMemberPermissions" in CommandData(n) <==> n.defaultMemberPermissions.Some?
    ensures "dmPermission" in CommandData(n) <==> n.dmPermission.Some?
    ensures "nsfw" in CommandData(n) <==> n.nsfw.Some?
    ensures n.dmPermission.Some? ==> CommandData(n)["dmPermission"] == Bool(n.dmPermission.value)
    ensures n.nsfw.Some? ==> CommandData(n)["nsfw"] == Bool(n.nsfw.value)
  {
  }

  lemma CommandDataKeys(n: NewCommand)
    ensures CommandData(n).Keys <= {"name", "description", "type", "options", "defaultMemberPermissions", "dmPermission", "nsfw"}
  {
  }

  /** `create_application_command`: one create call in the chosen scope. */
  function CreateCommandPlan(w: World, n: NewCommand, guildId: Option<string>): (r: Result<Step, Fault>) {
    var reg :- RegistryOf(w, guildId);
    Success(Step([Mutation(CommandsCreate, reg.target, CommandData(n))], map[],
                 Some("Created application command \"/" + n.name + "\" (" + reg.scope + ")")))
  }

  /** A command is created in the named guild, reported as
      `guild:<name>`, or globally, reported as "global". */
  lemma CreateCommandScope(w: World, n: NewCommand, guildId: Option<string>)
    requires w.connected && (Truthy(guildId) ==> guildId.value in w.guilds)
    ensures var r := CreateCommandPlan(w, n, guildId);
      && r.Success?
      && r.value.calls == [Mutation(CommandsCreate, if Truthy(guildId) then [guildId.value] else [], CommandData(n))]
      && r.value.text == Some("Created application command \"/" + n.name + "\" ("
                              + (if Truthy(guildId) then "guild:" + w.guilds[guildId.value].name else "global") + ")")
  {
  }

  /** The inputs of `modify_application_command`. */
  datatype CommandChange = CommandChange(
    name: Option<string>,
    description: Option<string>,
    options: Option<seq<OptionInput>>,
    defaultMemberPermissions: Option<string>,
    dmPermission: Option<bool>,
    nsfw: Option<bool>)

  /** `updates`, member by member. */
  function CommandUpdates(c: CommandChange): Fields {
    var u := Put(Put(map[], "name", StrOf(c.name)), "description", StrOf(c.description));
    var u := Put(u, "options", if c.options.Some? then Some(Arr(OptionValues(c.options.value))) else None);
    var u := Put(u, "defaultMemberPermissions", StrOf(c.defaultMemberPermissions));
    Put(Put(u, "dmPermission", BoolOf(c.dmPermission)), "nsfw", BoolOf(c.nsfw))
  }

  /** The members an edit writes: exactly the inputs given. */
  function Defined(c: CommandChange): set<string> {
    (if c.name.Some? then {"name"} else {})
    + (if c.description.Some? then {"description"} else {})
    + (if c.options.Some? then {"options"} else {})
    + (if c.defaultMemberPermissions.Some? then {"defaultMemberPermissions"} else {})
    + (if c.dmPermission.Some? then {"dmPermission"} else {})
    + (if c.nsfw.Some? then {"nsfw"} else {})
  }

  /** The updates hold exactly the given members, each with its given
      value; options are sent whatever the command's type. */
  lemma CommandUpdatesExact(c: CommandChange)
    ensures CommandUpdates(c).Keys == Defined(c)
    ensures c.name.Some? ==> CommandUpdates(c)["name"] == Str(c.name.value)
    ensures c.description.Some? ==> CommandUpdates(c)["description"] == Str(c.description.value)
    ensures c.options.Some? ==> CommandUpdates(c)["options"] == Arr(OptionValues(c.options.value))
    ensures c.defaultMemberPermissions.Some? ==> CommandUpdates(c)["defaultMemberPermissions"] == Str(c.defaultMemberPermissions.value)
    ensures c.dmPermission.Some? ==> CommandUpdates(c)["dmPermission"] == Bool(c.dmPermission.value)
    ensures c.nsfw.Some? ==> CommandUpdates(c)["nsfw"] == Bool(c.nsfw.value)
  {
    var o := if c.options.Some? then Some(Arr(OptionValues(c.options.value))) else None;
    var u1 := Put(Put(map[], "name", StrOf(c.name)), "description", StrOf(c.description));
    var u2 := Put(Put(u1, "options", o), "defaultMemberPermissions", StrOf(c.defaultMemberPermissions));
    ChangeHead(c, u1);
    ChangeMiddle(c, o, u1, u2);
    ChangeTail(c, u2, CommandUpdates(c));
  }

  lemma ChangeHead(c: CommandChange, u1: Fields)
    requires u1 == Put(Put(map[], "name", StrOf(c.name)), "description", StrOf(c.description))
    ensures u1.Keys == (if c.name.Some? then {"name"} else {}) + (if c.description.Some? then {"description"} else {})
    ensures c.name.Some? ==> u1["name"] == Str(c.name.value)
    ensures c.description.Some? ==> u1["description"] == Str(c.description.value)
  {
  }

  lemma ChangeMiddle(c: CommandChange, o: Option<Value>, u1: Fields, u2: Fields)
    requires u1.Keys <= {"name", "description"}
    requires u2 == Put(Put(u1, "options", o), "defaultMemberPermissions", StrOf(c.defaultMemberPermissions))
    ensures u2.Keys == u1.Keys + (if o.Some? then {"options"} else {})
                               + (if c.defaultMemberPermissions.Some? then {"defaultMemberPermissions"} else {})
    ensures forall k | k in u1 :: u2[k] == u1[k]
    ensures o.Some? ==> u2["options"] == o.value
    ensures c.defaultMemberPermissions.Some? ==> u2["defaultMemberPermissions"] == Str(c.defaultMemberPermissions.value)
  {
  }

  lemma ChangeTail(c: CommandChange, u2: Fields, u: Fields)
    requires u2.Keys <= {"name", "description", "options", "defaultMemberPermissions"}
    requires u == Put(Put(u2, "dmPermission", BoolOf(c.dmPermission)), "nsfw", BoolOf(c.nsfw))
    ensures u.Keys == u2.Keys + (if c.dmPermission.Some? then {"dmPermission"} else {})
                              + (if c.nsfw.Some? then {"nsfw"} else {})
    ensures forall k | k in u2 :: u[k] == u2[k]
    ensures c.dmPermission.Some? ==> u["dmPermission"] == Bool(c.dmPermission.value)
    ensures c.nsfw.Some? ==> u["nsfw"] == Bool(c.nsfw.value)
  {
  }

  /** `modify_application_command`: the command, then one edit. */
  function ModifyCommandPlan(w: World, commandId: string, c: CommandChange, guildId: Option<string>)
    : (r: Result<Step, Fault>)
  {
    var reg :- RegistryOf(w, guildId);
    var command :- FetchCommand(reg, commandId);
    var newName := c.name.GetOr(command.name);
    Success(Step([Mutation(CommandEdit, reg.target + [commandId], CommandUpdates(c))],
                 map["command" := Obj(map["id" := Str(commandId), "name" := Str(newName)])],
                 Some("Updated application command \"/" + newName + "\"")))
  }

  /** `delete_application_command`: the command, then one delete. */
  function DeleteCommandPlan(w: World, commandId: string, guildId: Option<string>): (r: Result<Step, Fault>) {
    var reg :- RegistryOf(w, guildId);
    var command :- FetchCommand(reg, commandId);
    Success(Step([Mutation(CommandDelete, reg.target + [commandId], map[])], map["commandId" := Str(commandId)],
                 Some("Deleted application command \"/" + command.name + "\" (" + reg.scope + ")")))
  }

  /** A command the scope does not hold is reported as an invalid
      `commandId`, and nothing is edited or deleted; one it holds is edited
      or deleted by exactly one call on it. */
  lemma CommandLookup(w: World, commandId: string, c: CommandChange, guildId: Option<string>)
    requires w.connected && (Truthy(guildId) ==> guildId.value in w.guilds)
    ensures var reg := RegistryOf(w, guildId).value;
      && ((forall x | x in reg.commands :: x.id != commandId) ==>
            && GetCommandPlan(w, commandId, guildId) == Failure(InvalidInput("commandId", "Command not found"))
            && ModifyCommandPlan(w, commandId, c, guildId) == Failure(InvalidInput("commandId", "Command not found"))
            && DeleteCommandPlan(w, commandId, guildId) == Failure(InvalidInput("commandId", "Command not found")))
      && ((exists x | x in reg.commands :: x.id == commandId) ==>
            && ModifyCommandPlan(w, commandId, c, guildId).Success?
            && ModifyCommandPlan(w, commandId, c, guildId).value.calls
               == [Mutation(CommandEdit, reg.target + [commandId], CommandUpdates(c))]
            && DeleteCommandPlan(w, commandId, guildId).value.calls
               == [Mutation(CommandDelete, reg.target + [commandId], map[])])
  {
    var reg := RegistryOf(w, guildId).value;
    assert RegistryOf(w, guildId) == Success(reg);
    var f := FetchCommand(reg, commandId);
    if f.Failure? {
      assert f == Failure(InvalidInput("commandId", "Command not found"));
      assert GetCommandPlan(w, commandId, guildId) == Failure(f.error);
      assert ModifyCommandPlan(w, commandId, c, guildId) == Failure(f.error);
      assert DeleteCommandPlan(w, commandId, guildId) == Failure(f.error);
    } else {
      assert ModifyCommandPlan(w, commandId, c, guildId).value.calls
          == [Mutation(CommandEdit, reg.target + [commandId], CommandUpdates(c))];
      assert DeleteCommandPlan(w, commandId, guildId).value.calls
          == [Mutation(CommandDelete, reg.target + [commandId], map[])];
    }
  }

  /** One entry of `bulk_overwrite_commands`; its options pass through as
      given. */
  datatype BulkEntry = BulkEntry(name: string, description: string, kind: Option<CommandType>, options: Option<seq<Value>>)

  /** One command as set: the description as given (`description || ""`
      changes nothing for a string), the type defaulting to a slash
      command, and the options defaulting to none. */
  function BulkValue(e: BulkEntry): Value {
    Obj(map["name" := Str(e.name),
            "description" := Str(e.description),
            "type" := Num(TypeCode(e.kind.GetOr(ChatInput))),
            "options" := Arr(e.options.GetOr([]))])
  }

  function BulkValues(entries: seq<BulkEntry>): (r: seq<Value>)
    ensures |r| == |entries| && forall i | 0 <= i < |entries| :: r[i] == BulkValue(entries[i])
  {
    seq(|entries|, i requires 0 <= i < |entries| => BulkValue(entries[i]))
  }

  /** `bulk_overwrite_commands`: one call that replaces every command of
      the scope. The count reported is the number of commands set. */
  function BulkOverwritePlan(w: World, entries: seq<BulkEntry>, guildId: Option<string>): (r: Result<Step, Fault>) {
    var reg :- RegistryOf(w, guildId);
    Success(Step([Mutation(CommandsSet, reg.target, map["commands" := Arr(BulkValues(entries))])],
                 map["count" := Num(|entries|), "scope" := Str(reg.scope)],
                 Some("Synchronized " + NatToString(|entries|) + " application commands (" + reg.scope + ")")))
  }

  /** Every entry is set, in order, with a slash-command type and no
      options unless told otherwise, and its own name and description. */
  lemma BulkDefaults(entries: seq<BulkEntry>, i: int)
    requires 0 <= i < |entries|
    ensures var v := BulkValues(entries)[i].fields;
      && v.Keys == {"name", "description", "type", "options"}
      && v["name"] == Str(entries[i].name) && v["description"] == Str(entries[i].description)
      && (entries[i].kind.None? ==> v["type"] == Num(1))
      && (entries[i].options.None? ==> v["options"] == Arr([]))
      && (entries[i].options.Some? ==> v["options"] == Arr(entries[i].options.value))
  {
  }

  /** A failure of any command tool is reported as "Error: " and the
      message, and is not flagged as an error. */
  lemma CommandFailuresUnflagged(f: Fault)
    ensures Failed(CommandsTool, f).text == Some("Error: " + Message(f))
    ensures !Failed(CommandsTool, f).isError
  {
  }
}
