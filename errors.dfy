/** The error vocabulary of the server: one error record (`DiscordMCPError`)
    with a message, a machine-readable code and an optional resolution hint,
    and the seven kinds of error the tools raise through it. A handler can
    also throw a plain `Error` carrying only a message. */
module Errors {
  import opened Wrappers
  import opened Text

  /** A `DiscordMCPError`: `retryAfter` is the extra field only a rate-limit
      error carries. */
  datatype McpError = McpError(message: string, code: string, resolution: Option<string>, retryAfter: Option<nat>)

  /** The `name` every error reports; no kind overrides it. */
  const ErrorName: string := "DiscordMCPError"

  /** The object `toJSON()` returns. */
  datatype ErrorJson = ErrorJson(name: string, message: string, code: string, resolution: Option<string>)

  /** `new DiscordMCPError(message, code, resolution)`. */
  function NewError(message: string, code: string, resolution: Option<string>): (e: McpError)
    ensures e.message == message && e.code == code && e.resolution == resolution
    ensures e.retryAfter.None?
  {
    McpError(message, code, resolution, None)
  }

  function ToJson(e: McpError): ErrorJson {
    ErrorJson(ErrorName, e.message, e.code, e.resolution)
  }

  /** `toJSON()` hands back exactly the constructor's arguments under the
      fixed name, the resolution possibly absent. */
  lemma ToJsonCarriesArguments(message: string, code: string, resolution: Option<string>)
    ensures ToJson(NewError(message, code, resolution)) == ErrorJson("DiscordMCPError", message, code, resolution)
    ensures resolution.None? ==> ToJson(NewError(message, code, resolution)).resolution.None?
  {
  }

  /** What a handler throws: one of the seven kinds of `DiscordMCPError`, or
      a plain `Error`. */
  datatype Fault =
    | NotConnected
    | PermissionDenied(permission: string, resourceId: string)
    | ChannelNotFound(channelId: string)
    | GuildNotFound(guildId: string)
    | MessageNotFound(messageId: string)
    | RateLimited(retryAfter: nat)
    | InvalidInput(field: string, reason: string)
    | Plain(text: string)

  const NotConnectedHint: string := "Ensure the bot is logged in before making requests. The server should initialize the Discord client on startup."
  const ChannelHint: string := "Verify the channel ID is correct and the bot has access to it"
  const GuildHint: string := "Verify the guild ID is correct and the bot is a member of it"
  const MessageHint: string := "Verify the message ID is correct and the message has not been deleted"
  const NotConnectedMessage: string := "Discord client is not connected"
  const ChannelNotFoundPrefix: string := "Channel not found: "
  const GuildNotFoundPrefix: string := "Guild not found: "
  const MessageNotFoundPrefix: string := "Message not found: "

  /** The `DiscordMCPError` a fault other than a plain `Error` constructs:
      each kind passes its own message, code and resolution to the base
      constructor, and a rate-limit error also keeps `retryAfter`. */
  function ErrorOf(f: Fault): McpError
    requires !f.Plain?
  {
    McpError(MessageOf(f), CodeOf(f), Some(ResolutionOf(f)),
      if f.RateLimited? then Some(f.retryAfter) else None)
  }

  function MessageOf(f: Fault): string
    requires !f.Plain?
  {
    match f
    case NotConnected => NotConnectedMessage
    case PermissionDenied(p, r) => "Missing permission: " + p + " for resource " + r
    case ChannelNotFound(id) => ChannelNotFoundPrefix + id
    case GuildNotFound(id) => GuildNotFoundPrefix + id
    case MessageNotFound(id) => MessageNotFoundPrefix + id
    case RateLimited(n) => "Rate limited. Retry after " + NatToString(n) + "ms"
    case InvalidInput(field, reason) => "Invalid input for " + field + ": " + reason
  }

  function CodeOf(f: Fault): string
    requires !f.Plain?
  {
    match f
    case NotConnected => "DISCORD_NOT_CONNECTED"
    case PermissionDenied(_, _) => "PERMISSION_DENIED"
    case ChannelNotFound(_) => "CHANNEL_NOT_FOUND"
    case GuildNotFound(_) => "GUILD_NOT_FOUND"
    case MessageNotFound(_) => "MESSAGE_NOT_FOUND"
    case RateLimited(_) => "RATE_LIMITED"
    case InvalidInput(_, _) => "INVALID_INPUT"
  }

  function ResolutionOf(f: Fault): string
    requires !f.Plain?
  {
    match f
    case NotConnected =>
      NotConnectedHint
    case PermissionDenied(p, _) =>
      "Grant the bot the '" + p + "' permission in the Discord Developer Portal or server settings"
    case ChannelNotFound(_) => ChannelHint
    case GuildNotFound(_) => GuildHint
    case MessageNotFound(_) => MessageHint
    case RateLimited(n) => "Wait " + NatToString(n) + "ms before retrying"
    case InvalidInput(field, reason) => "Correct the " + field + " field: " + reason
  }

  /** `error.message`, what every failure envelope reports. */
  function Message(f: Fault): string {
    if f.Plain? then f.text else ErrorOf(f).message
  }

  /** Every kind names the permission it misses, in both message and
      resolution. */
  lemma PermissionDeniedNamesPermission(p: string, r: string)
    ensures var e := ErrorOf(PermissionDenied(p, r));
      e.message == "Missing permission: " + p + " for resource " + r
      && e.code == "PERMISSION_DENIED"
      && Contains(e.message, p) && Contains(e.message, r)
      && e.resolution.Some? && Contains(e.resolution.value, p)
  {
    ContainsSelf(p);
    ContainsSelf(r);
    ContainsExtend(p, p, "Missing permission: ", " for resource " + r);
    assert "Missing permission: " + p + " for resource " + r == "Missing permission: " + p + (" for resource " + r);
    ContainsExtend(r, r, "Missing permission: " + p + " for resource ", "");
    assert "Missing permission: " + p + " for resource " + r + "" == "Missing permission: " + p + " for resource " + r;
    ContainsExtend(p, p, "Grant the bot the '", "' permission in the Discord Developer Portal or server settings");
  }

  /** A not-found message holds the id verbatim, and the id can be read back
      from the message. */
  lemma NotFoundNamesId(id: string)
    ensures var c, g, m := ErrorOf(ChannelNotFound(id)), ErrorOf(GuildNotFound(id)), ErrorOf(MessageNotFound(id));
      && c.code == "CHANNEL_NOT_FOUND" && g.code == "GUILD_NOT_FOUND" && m.code == "MESSAGE_NOT_FOUND"
      && Contains(c.message, id) && Contains(g.message, id) && Contains(m.message, id)
      && c.message[|ChannelNotFoundPrefix|..] == id
      && g.message[|GuildNotFoundPrefix|..] == id
      && m.message[|MessageNotFoundPrefix|..] == id
  {
    ContainsSelf(id);
    ContainsExtend(id, id, ChannelNotFoundPrefix, "");
    ContainsExtend(id, id, GuildNotFoundPrefix, "");
    ContainsExtend(id, id, MessageNotFoundPrefix, "");
    assert ChannelNotFoundPrefix + id + "" == ChannelNotFoundPrefix + id;
    assert GuildNotFoundPrefix + id + "" == GuildNotFoundPrefix + id;
    assert MessageNotFoundPrefix + id + "" == MessageNotFoundPrefix + id;
  }

  /** Two not-found errors of one kind are the same error exactly when they
      name the same id. */
  lemma NotFoundInjective(a: string, b: string)
    ensures ErrorOf(ChannelNotFound(a)) == ErrorOf(ChannelNotFound(b)) <==> a == b
    ensures ErrorOf(GuildNotFound(a)) == ErrorOf(GuildNotFound(b)) <==> a == b
    ensures ErrorOf(MessageNotFound(a)) == ErrorOf(MessageNotFound(b)) <==> a == b
  {
    NotFoundNamesId(a);
    NotFoundNamesId(b);
  }

  /** A rate-limit error keeps `retryAfter` and shows it in both texts. */
  lemma RateLimitShowsWait(n: nat)
    ensures var e := ErrorOf(RateLimited(n));
      e.retryAfter == Some(n) && e.code == "RATE_LIMITED"
      && Contains(e.message, NatToString(n))
      && e.resolution.Some? && Contains(e.resolution.value, NatToString(n))
  {
    var s := NatToString(n);
    ContainsSelf(s);
    ContainsExtend(s, s, "Rate limited. Retry after ", "ms");
    ContainsExtend(s, s, "Wait ", "ms before retrying");
  }

  /** An invalid-input error names the field and the reason. */
  lemma InvalidInputNamesField(field: string, reason: string)
    ensures var e := ErrorOf(InvalidInput(field, reason));
      e.message == "Invalid input for " + field + ": " + reason
      && e.code == "INVALID_INPUT"
      && Contains(e.message, field) && Contains(e.message, reason)
      && e.resolution.Some? && Contains(e.resolution.value, field)
  {
    ContainsSelf(field);
    ContainsSelf(reason);
    ContainsExtend(field, field, "Invalid input for ", ": " + reason);
    assert "Invalid input for " + field + ": " + reason == "Invalid input for " + field + (": " + reason);
    ContainsExtend(reason, reason, "Invalid input for " + field + ": ", "");
    assert "Invalid input for " + field + ": " + reason + "" == "Invalid input for " + field + ": " + reason;
    ContainsExtend(field, field, "Correct the ", " field: " + reason);
    assert "Correct the " + field + " field: " + reason == "Correct the " + field + (" field: " + reason);
  }

  /** Which of the seven kinds a fault is. */
  function KindIndex(f: Fault): nat {
    match f
    case NotConnected => 0
    case PermissionDenied(_, _) => 1
    case ChannelNotFound(_) => 2
    case GuildNotFound(_) => 3
    case MessageNotFound(_) => 4
    case RateLimited(_) => 5
    case InvalidInput(_, _) => 6
    case Plain(_) => 7
  }

  const Codes: seq<string> := ["DISCORD_NOT_CONNECTED", "PERMISSION_DENIED", "CHANNEL_NOT_FOUND",
    "GUILD_NOT_FOUND", "MESSAGE_NOT_FOUND", "RATE_LIMITED", "INVALID_INPUT"]

  /** Reads the kind back from a code. */
  function KindOfCode(code: string): Option<nat> {
    if code == "DISCORD_NOT_CONNECTED" then Some(0)
    else if code == "PERMISSION_DENIED" then Some(1)
    else if code == "CHANNEL_NOT_FOUND" then Some(2)
    else if code == "GUILD_NOT_FOUND" then Some(3)
    else if code == "MESSAGE_NOT_FOUND" then Some(4)
    else if code == "RATE_LIMITED" then Some(5)
    else if code == "INVALID_INPUT" then Some(6)
    else None
  }

  /** Every code reads back as its kind. */
  lemma CodesReadBack()
    ensures forall k | 0 <= k < |Codes| :: KindOfCode(Codes[k]) == Some(k)
  {
    forall k | 0 <= k < |Codes| ensures KindOfCode(Codes[k]) == Some(k) {
      forall j | 0 <= j < |Codes| && j != k ensures Codes[k] != Codes[j] {
        assert Codes[k][0] != Codes[j][0];
      }
    }
  }

  /** Each kind carries its own code and a resolution; only a rate-limit
      error carries `retryAfter`. */
  lemma CodeOfKind(f: Fault)
    requires !f.Plain?
    ensures KindIndex(f) < |Codes| && ErrorOf(f).code == Codes[KindIndex(f)]
    ensures ErrorOf(f).resolution.Some? && ErrorOf(f).resolution.value != []
    ensures ErrorOf(f).retryAfter.Some? <==> f.RateLimited?
    ensures f.NotConnected? ==> ErrorOf(f).message == NotConnectedMessage
  {
    ResolutionNonEmpty(f);
    match f
    case NotConnected =>
    case PermissionDenied(_, _) =>
    case ChannelNotFound(_) =>
    case GuildNotFound(_) =>
    case MessageNotFound(_) =>
    case RateLimited(_) =>
    case InvalidInput(_, _) =>
  }

  /** Every resolution hint is a non-empty text. */
  lemma ResolutionNonEmpty(f: Fault)
    requires !f.Plain?
    ensures |ResolutionOf(f)| > 0
  {
    match f
    case NotConnected =>
    case PermissionDenied(p, _) =>
      assert ResolutionOf(f)[0] == 'G';
    case ChannelNotFound(_) =>
    case GuildNotFound(_) =>
    case MessageNotFound(_) =>
    case RateLimited(n) =>
      assert ResolutionOf(f)[0] == 'W';
    case InvalidInput(_, _) =>
      assert ResolutionOf(f)[0] == 'C';
  }

  /** The code of every kind reads back as that kind. */
  lemma CodeReadsBack(f: Fault)
    requires !f.Plain?
    ensures KindOfCode(ErrorOf(f).code) == Some(KindIndex(f))
  {
    CodeOfKind(f);
    CodesReadBack();
    var k := KindIndex(f);
    assert KindOfCode(Codes[k]) == Some(k);
  }

  /** The seven codes are pairwise distinct: the code tells the kind. */
  lemma CodeTellsKind(f: Fault, g: Fault)
    requires !f.Plain? && !g.Plain?
    ensures ErrorOf(f).code == ErrorOf(g).code <==> KindIndex(f) == KindIndex(g)
  {
    if KindIndex(f) == KindIndex(g) {
      CodeOfKind(f);
      CodeOfKind(g);
    } else {
      CodeReadsBack(f);
      CodeReadsBack(g);
    }
  }
}
