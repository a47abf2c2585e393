# Discord MCP server: a verified model of its tools and content scripts

This project models, in Dafny, the core of an MCP server that exposes Discord
administration as tools, together with the text helpers its content-posting
scripts share. It covers three parts.

- **Errors, guild resolution and input schemas.**
  - `Errors` is the error vocabulary: the base `DiscordMCPError` with `toJSON`, and the seven typed errors (codes, messages, resolutions).
  - `GuildValidation` holds `validateGuildAccess` and `hasGuildAccess`.
  - `Schemas` states the zod validators as predicates: snowflakes, embeds, messages and channels.
- **The tool handlers.** They are in `Moderation`, `Channels`, `Messaging`, `Server`, `Automod`, `Commands` and `Stickers`.
  - The Discord platform is an abstract `World`: the guilds with their channels, members, bans, rules, commands, stickers, webhooks, invites and audit log; the bot's permission bits and role position; the files on disk; and whether the client is connected.
  - Each handler is a pure plan, `XPlan(w, inputs): Result<Step, Fault>`, which performs the handler's lookups and permission checks in the handler's own order. A plan either fails with the error the handler throws, or gives the remote mutations it issues (`Mutation(api, target, payload)`) together with its structured output.
  - Payloads are JSON-like `Fields` maps, built by chains of `Put(o, key, value?)`. These model the handler's "copy a field only when it is given" writes.
  - `Platform.Handle` is the one imperative step every handler shares. A `Remote` object holds the mutation log; `Handle` issues the plan's calls through it and folds a thrown error into the `{success: false, error}` envelope. The envelope carries `isError` for the channel, messaging, moderation and server tools, and omits it for the automod, application-command and sticker tools.
- **The content scripts' helpers.**
  - `LineSplitter`: the three line splitters (keeping long lines, truncating them, or word-wrapping them).
  - `ParagraphSplitter`: the paragraph splitter.
  - `Sections`: the two markdown section extractors.
  - `Posting` and `Updates`: posting a chunked guide or update to a thread or a text channel, and the success/failure tallies.
  - `Reconcile`: the edit/add/remove plan of `update-forum-thread.js`.
  - The loops of the scripts are methods proved equal to specification functions. Properties are then proved about those functions: text is preserved up to whitespace, lengths are bounded, long lines stay whole, and the counts add up.

`Wrappers` (Option/Result) and `Text` (JavaScript `trim`, `split`, `join`, whitespace and number formatting) are shared helpers.

## Model

| member | source | states |
|---|---|---|
| Errors.NewError | src/errors/base.ts:2-10 | the error's message, code and resolution are exactly the constructor's arguments, and a base error has no retry delay |
| Errors.ToJsonCarriesArguments | src/errors/base.ts:12-19 | `toJSON` returns the name "DiscordMCPError" with the constructor's message, code and resolution, and an absent resolution stays absent |
| Errors.PermissionDeniedNamesPermission | src/errors/discord.ts:13-20 | the message is "Missing permission: p for resource r", the code is PERMISSION_DENIED, and the resolution names the permission |
| Errors.NotFoundNamesId | src/errors/discord.ts:23-50 | the channel, guild and message not-found errors have their own codes and end their message with the id verbatim |
| Errors.NotFoundInjective | src/errors/discord.ts:23-50 | two not-found errors of the same kind are equal exactly when their ids are |
| Errors.RateLimitShowsWait | src/errors/discord.ts:53-60 | a rate-limit error keeps `retryAfter` and shows it in both its message and its resolution |
| Errors.InvalidInputNamesField | src/errors/discord.ts:63-70 | the message is "Invalid input for f: r", the code is INVALID_INPUT, and the resolution names the field |
| Errors.CodeOfKind | src/errors/discord.ts:3-70 | every typed error has the code of its kind and a non-empty resolution; only a rate-limit error has a retry delay; the not-connected message is fixed |
| Errors.CodesReadBack | src/errors/discord.ts:3-70 | each of the seven codes reads back as its own kind, so the codes are pairwise distinct |
| Errors.CodeReadsBack | src/errors/discord.ts:3-70 | the code of any typed error identifies its kind |
| Errors.CodeTellsKind | src/errors/discord.ts:3-70 | two typed errors share a code exactly when they are of the same kind |
| GuildValidation.ValidateGuildAccess | src/utils/guild-validation.ts:11-22 | yields the guild exactly when the fetch resolves to one; otherwise it fails with GuildNotFound naming the id, which covers a rejected fetch as well as a null one |
| GuildValidation.AccessIffValid | src/utils/guild-validation.ts:30-39 | `hasGuildAccess` is true exactly when validation succeeds, and otherwise the refusal message contains the guild id |
| Schemas.SnowflakeOfNumber | src/types/schemas.ts:4-6 | the decimal form of a number is a snowflake (17 to 19 digits) exactly when 10^16 <= n < 10^19 |
| Schemas.ValidEmbedTextBound | src/types/schemas.ts:9-48 | an embed within the title, description, footer, author and 25-field bounds carries a bounded amount of text |
| Schemas.FieldsTextBound | src/types/schemas.ts:38-47 | valid fields carry at most 256 + 1024 characters each |
| Schemas.MessageReactionsOptional | src/types/schemas.ts:83-92 | a message's validity does not depend on its optional reactions, and a valid message has snowflake ids for itself and its author |
| Schemas.ChannelParent | src/types/schemas.ts:95-103 | an absent or null parent id is accepted, and a present one must be a snowflake |
| Platform.Put | src/tools/channels.ts:647-652 | a conditional field write adds the key exactly when the value is given, and leaves every other key unchanged |
| Platform.Remote.Call | src/tools/channels.ts:63-69 | a remote call is logged exactly when the platform accepts it, and nothing else changes |
| Platform.Issue | src/tools/channels.ts:751-766 | a handler's calls are issued in order: the log grows by the accepted prefix, and the result reports whether all were accepted |
| Platform.Handle | src/tools/channels.ts:48-118 | a failed lookup or permission check leaves the mutation log unchanged and yields the failure envelope; otherwise the log grows by exactly the plan's accepted calls |
| Platform.Failed | src/tools/channels.ts:97-118 | the failure envelope is exactly `{success: false, error: message}`, with the tool's text prefix and the tool's `isError` flag |
| Platform.EnvelopeReportsFault | src/tools/channels.ts:97-118 | the envelope reports success exactly when the plan succeeded and all its calls were accepted; a failed plan reports exactly its error message |
| Platform.Client | src/tools/channels.ts:50 | the client is obtained exactly when connected, and otherwise a not-connected error is thrown |
| Platform.FetchGuild | src/tools/channels.ts:52-55 | the guild is found exactly when its id exists, and otherwise GuildNotFound(id) is thrown |
| Platform.GuildPerm | src/tools/channels.ts:58-61 | the check passes exactly when the bot holds the bit, and otherwise PermissionDenied names the permission and the resource |
| Platform.FetchTextChannel | src/tools/messaging.ts:44-50 | the channel is found exactly when it exists and is text-based, and otherwise ChannelNotFound(id) is thrown |
| Platform.FetchMessage | src/tools/messaging.ts:288-293 | the message is found exactly when the channel holds one with that id, and otherwise MessageNotFound(id) is thrown |
| Platform.FilterConcat | src/tools/moderation.ts:71-87 | a filter stage distributes over concatenation, so it keeps the fetched order |
| Platform.FilterFuse | src/tools/moderation.ts:71-87 | two successive filter stages equal one stage that tests both predicates |
| Platform.Take | src/tools/channels.ts:1281 | `slice(0, limit)` is a prefix of the list, of length min(limit, length) |
| Moderation.SelectionIsWanted | src/tools/moderation.ts:71-87 | the messages to delete are the fetched messages, in order, that pass every active filter (author, bot, under 14 days old); every such message is selected |
| Moderation.BulkDeleteGates | src/tools/moderation.ts:52-107 | a missing channel, then a missing ManageMessages in a guild, fail before anything is deleted; on success, between 1 and `limit` selected messages are deleted by one call |
| Moderation.NothingLeftFails | src/tools/moderation.ts:89-93 | when no fetched message passes the filters, the handler fails and never calls `bulkDelete` |
| Moderation.GetBansGate | src/tools/moderation.ts:183-209 | bans are listed only with BanMembers; the listing issues no mutation, holds exactly min(`limit`, bans) rows (`limit` is 100 by default), the first bans in order, and shows a missing reason as null |
| Moderation.NicknameHierarchy | src/tools/moderation.ts:273-316 | no nickname is set when the member's highest role is not below the bot's; an empty or absent nickname is sent and reported as null |
| Channels.TextChannelPayloadFields | src/tools/channels.ts:63-69 | the create payload holds name, type 0 and nsfw, plus the topic when given and the parent only when it is non-empty |
| Channels.VoiceChannelPayloadFields | src/tools/channels.ts:342-348 | the voice payload has type 2 and carries the parent only when it is non-empty |
| Channels.CategoryPayloadFields | src/tools/channels.ts:437-440 | the category payload is exactly a name and type 4 |
| Channels.ForumPayloadFields | src/tools/channels.ts:531-541 | the forum payload has type 15 and one available tag per given tag name |
| Channels.StagePayloadFields | src/tools/channels.ts:1048-1053 | the stage payload has type 13, with topic and parent only when given |
| Channels.CreateChannelGates | src/tools/channels.ts:48-69 | a missing guild fails before the permission check, and a missing ManageChannels fails before creation; otherwise exactly one create call is made in that guild |
| Channels.DeleteChannelGate | src/tools/channels.ts:143-161 | a guild channel is deleted only with ManageChannels in its guild, and the refusal names the guild |
| Channels.ModifyChannelOptionsExact | src/tools/channels.ts:647-652 | the options hold exactly the given inputs, with slowmode written as `rateLimitPerUser` |
| Channels.ModifyChannelGates | src/tools/channels.ts:627-654 | a DM channel is refused; on success the guild holds ManageChannels and the one edit carries exactly the options |
| Channels.CreateThreadDefaults | src/tools/channels.ts:732-766 | the thread auto-archives after 60 minutes by default, a non-empty first message is sent after creation, and a channel without threads is refused |
| Channels.ArchiveThenLock | src/tools/channels.ts:815-852 | the thread is always archived first, and locked only when `locked` is not false; a non-thread is refused |
| Channels.InsertSorted | src/tools/channels.ts:962 | inserting into a position-sorted list keeps it sorted |
| Channels.SortByPosition | src/tools/channels.ts:962 | the sort is a permutation of its input |
| Channels.SortByPositionSorted | src/tools/channels.ts:962 | the sorted rows are in ascending position order |
| Channels.ListChannelsSorted | src/tools/channels.ts:925-967 | the listing changes nothing; its rows are sorted by position and are a permutation of the present channels of the asked type; `totalCount` is their number |
| Channels.ListedChannels | src/tools/channels.ts:936-951 | null entries are dropped, and exactly the present channels of the asked type are kept (every type for "all") |
| Channels.FindThreadsBounds | src/tools/channels.ts:1247-1281 | the threads found are the first `limit` matches, active ones before archived ones (these only when asked for), each list in fetch order; so at most `limit`, each matching the search text, and a matching thread, active or archived, is missing only when the page is full |
| Channels.ArchivedOnlyWhenAsked | src/tools/channels.ts:1268-1272 | without `archived`, only active threads are returned |
| Channels.CapabilityFlags | src/tools/channels.ts:1383-1389 | forums support threads, voice channels are neither forums nor thread hosts, and messages are supported exactly for text-based channels |
| Channels.ChannelDetailsFlags | src/tools/channels.ts:1369-1417 | details exist for guild channels and change nothing; threads are supported exactly for text, announcement and forum channels; voice means voice or stage; forum means forum |
| Messaging.SendPerms | src/tools/messaging.ts:54-65 | a guild channel needs SendMessages, and a thread also needs SendMessagesInThreads; a DM needs neither |
| Messaging.SendMessageGates | src/tools/messaging.ts:44-75 | the message is sent only after both permission checks, in that order, and carries the content and the embeds (none by default) |
| Messaging.ReadMessagesGates | src/tools/messaging.ts:155-218 | ViewChannel is checked before ReadMessageHistory; reading changes nothing, returns min(limit, count) messages, row `i` being the channel's `i`-th newest message, and `hasMore` holds exactly when a full page was fetched |
| Messaging.FetchChannelMessage | src/tools/messaging.ts:281-293 | a missing or non-text channel fails with ChannelNotFound before any message lookup; a success is a message of that channel with that id |
| Messaging.DeleteMessageGate | src/tools/messaging.ts:281-305 | a message is deleted only if it is the bot's own, or the channel is a DM, or the bot holds ManageMessages; the only permission refusal is ManageMessages |
| Messaging.DeleteOwnMessage | src/tools/messaging.ts:295-303 | the bot can always delete its own message |
| Messaging.ReactAndPinGates | src/tools/messaging.ts:371-393 | reacting needs AddReactions, and pinning or unpinning needs ManageMessages, on an existing message; each is exactly one call |
| Messaging.EditMessageFallback | src/tools/messaging.ts:466-491 | only the bot's own messages are edited; empty content keeps the old content, and absent embeds keep the old embeds |
| Messaging.LastSegmentOf | src/tools/messaging.ts:612 | the last path segment of dir/name is the name |
| Messaging.BasenameOfPath | src/tools/messaging.ts:612 | the default attachment name is the path's basename, ignoring trailing slashes, and contains no slash |
| Messaging.SendFileOrder | src/tools/messaging.ts:571-624 | a missing AttachFiles is refused, and every permission before the file-exists check; the one send carries the file under its name, and content only when non-empty |
| Messaging.SendFileRefusals | src/tools/messaging.ts:583-597 | in a guild channel a missing SendMessages is refused first, then a missing AttachFiles, then in a thread a missing SendMessagesInThreads, each by name |
| Messaging.TimestampOf | src/tools/messaging.ts:908-910 | the timestamp is written exactly when asked for, and is the current time |
| Messaging.EmbedHeadFields | src/tools/messaging.ts:877-880 | title, description and url appear exactly when non-empty, and color whenever it is defined (0 included) |
| Messaging.EmbedBodyFields | src/tools/messaging.ts:877-902 | author and footer appear exactly when given, and image and thumbnail exactly when non-empty |
| Messaging.EmbedObjectFields | src/tools/messaging.ts:874-912 | every embed field appears exactly when it is provided, and the timestamp exactly when asked for |
| Messaging.EmbedObjectKeys | src/tools/messaging.ts:874-912 | the embed object holds no field besides the ten it may write |
| Messaging.RichMessageEmbedLinks | src/tools/messaging.ts:845-921 | EmbedLinks is required only when an embed is given; the sent embeds are exactly that embed's object, or none |
| Server.ModifyServerGates | src/tools/server.ts:48-66 | ManageGuild is checked before the edit, and the options hold exactly the given name, description and reason |
| Server.ActionCodesDistinct | src/tools/server.ts:191-203 | the audit action names map to pairwise distinct codes |
| Server.Selected | src/tools/server.ts:210-218 | the fetched entries are entries of the log that the fetch options select |
| Server.FetchOptionsSelect | src/tools/server.ts:187-206 | the options always hold the limit; they select an entry exactly when it matches the given user and the given action (any action for "ALL") |
| Server.AuditSummaryNumber | src/tools/server.ts:235 | the summary says "entry" for exactly one result and "entries" otherwise |
| Server.AuditLogsFilter | src/tools/server.ts:173-235 | audit logs are read only with ViewAuditLog and change nothing; the rows are exactly the first `limit` (50 by default) entries that match the user and the action, in log order |
| Server.SelectedMatching | src/tools/server.ts:187-208 | what the fetch options select from a log is exactly the entries matching the given user and action, whatever the limit |
| Server.ListWebhooksScope | src/tools/server.ts:296-328 | listing needs ManageWebhooks; with a channel id exactly that channel's webhooks are listed, otherwise the guild's |
| Server.ChannelGuildPerm | src/tools/server.ts:639-649 | a guild channel's check passes exactly when its guild grants the bit, and the refusal names the guild |
| Server.CreateWebhookGates | src/tools/server.ts:400-422 | a channel that cannot hold webhooks is refused; on success exactly one create call carries the name and the given reason |
| Server.GetInvitesDefaults | src/tools/server.ts:502-528 | invites are listed only with ManageGuild and the listing issues no mutation; row `k` is the row of the guild's `k`-th invite; missing uses and maxUses show 0, a missing expiry null, and temporary false |
| Server.InviteRowFields | src/tools/server.ts:518-529 | an invite's row holds its code and url, its channel id or "", its channel name only when known, its inviter id or null, its inviter's name or null, uses and maxUses or 0, its expiry or null, and temporary or false |
| Server.CreateInviteDefaults | src/tools/server.ts:620-657 | only a channel that supports invites gets one, in a guild only with CreateInstantInvite, and then by exactly one create call carrying the options |
| Server.InviteOptionsFields | src/tools/server.ts:580-605 | `unique` is true unless given, and maxAge and maxUses are sent exactly when given, with their values |
| Automod.RulesGuild | src/tools/automod.ts:58-61 | a guild's rules are reached only with ManageGuild, and otherwise PermissionDenied names the guild |
| Automod.FetchRule | src/tools/automod.ts:157-160 | a missing rule is InvalidInput("ruleId", "Rule not found") |
| Automod.TriggerMetadataByType | src/tools/automod.ts:355-368 | keyword rules get keywordFilter, regexPatterns and allowList when given; preset rules get presets and allowList; mention-spam rules get a non-zero mentionTotalLimit; spam and member-profile rules get nothing |
| Automod.ActionMetadataCases | src/tools/automod.ts:370-387 | an alert action with a channel gets `{channelId[, customMessage]}`, a timeout with a non-zero duration gets `{durationSeconds}`, and any other action gets no metadata |
| Automod.MetadataMember | src/tools/automod.ts:394-397 | empty trigger metadata is left out of the payload |
| Automod.CreateRuleEnabled | src/tools/automod.ts:302-304 | a rule is enabled unless `enabled` is false |
| Automod.CreateRuleEvent | src/tools/automod.ts:302-304 | the event type is MESSAGE_SEND (1) unless MEMBER_UPDATE is asked for |
| Automod.CreateRuleExempts | src/tools/automod.ts:389-401 | exempt roles and channels default to empty, and the actions are the built actions in order |
| Automod.CreateRuleMetadata | src/tools/automod.ts:389-401 | the payload carries trigger metadata exactly when it is non-empty, so spam and member-profile rules carry none |
| Automod.MergeKeepsOthers | src/tools/automod.ts:557-573 | the merged metadata keeps every existing field it does not write; each of keywordFilter, regexPatterns, allowList and mentionTotalLimit takes the provided value, or keeps the rule's own when not provided |
| Automod.RuleUpdatesFields | src/tools/automod.ts:553-598 | the updates hold only the seven writable fields, each exactly when provided and with its provided value (actions mapped); metadata appears exactly when one of the four metadata inputs is provided, as the merge of the rule's own |
| Automod.ModifyRuleCall | src/tools/automod.ts:515-618 | a rule is modified exactly when ManageGuild holds and the rule exists, by one edit carrying the updates |
| Automod.RulesNeedManageGuild | src/tools/automod.ts:48-694 | without ManageGuild, listing, reading, creating, modifying and deleting rules all fail with PermissionDenied |
| Automod.MissingRule | src/tools/automod.ts:539-542 | reading, modifying or deleting a missing rule fails with InvalidInput("ruleId", "Rule not found") |
| Commands.TypeName | src/tools/application-commands.ts:164-179 | a type code has a name exactly when it is 1 to 4 |
| Commands.OptionTypeName | src/tools/application-commands.ts:322-334 | an option type code has a name exactly when it is 1 to 11 |
| Commands.OptionCodesNamed | src/tools/application-commands.ts:322-334 | every option kind has a named code, and distinct kinds have distinct codes |
| Commands.RegistryOf | src/tools/application-commands.ts:55-64 | with a non-empty guild id, the commands are that guild's, scoped "guild:name"; otherwise they are the global ones, scoped "global"; a missing guild is GuildNotFound |
| Commands.FindCommand | src/tools/application-commands.ts:153-162 | a command is found exactly when one has that id, and the one found has it |
| Commands.FetchCommand | src/tools/application-commands.ts:510-519 | a missing command is InvalidInput("commandId", "Command not found") |
| Commands.PermissionsOrNull | src/tools/application-commands.ts:66-72 | missing or empty permissions are shown as null |
| Commands.ListCommandsRows | src/tools/application-commands.ts:48-94 | listing changes nothing, names its scope, and has one row per command of that scope, with `count` equal to their number |
| Commands.StoredOptionDefaults | src/tools/application-commands.ts:164-179 | a stored option without `required` shows false, and one without choices shows an empty list |
| Commands.OptionsMember | src/tools/application-commands.ts:342-350 | options are attached exactly for chat-input commands that have options |
| Commands.CommandDataType | src/tools/application-commands.ts:306-340 | the type defaults to chat input, and the description is forced to "" for other types |
| Commands.CommandDataMembers | src/tools/application-commands.ts:342-360 | options, defaultMemberPermissions, dmPermission and nsfw are written exactly when they apply |
| Commands.CommandDataKeys | src/tools/application-commands.ts:336-360 | the command data holds no other field |
| Commands.CreateCommandScope | src/tools/application-commands.ts:365-393 | the command is created once, in the guild when a guild id is given and globally otherwise |
| Commands.CommandUpdatesExact | src/tools/application-commands.ts:535-552 | the updates hold exactly the defined fields, each with its given value: name, description, options, defaultMemberPermissions, dmPermission and nsfw |
| Commands.CommandLookup | src/tools/application-commands.ts:495-661 | reading, modifying or deleting a missing command fails with InvalidInput; an existing one is edited or deleted by exactly one call |
| Commands.BulkDefaults | src/tools/application-commands.ts:727-732 | each overwrite entry holds exactly name, description, type and options, with type 1 and options [] by default |
| Commands.CommandFailuresUnflagged | src/tools/application-commands.ts:95-113 | a failure is reported as "Error: message", without the `isError` flag |
| Stickers.FormatNames | src/tools/stickers.ts:60 | codes 1, 2 and 3 have distinct names, and every other code is UNKNOWN |
| Stickers.TextOrNull | src/tools/stickers.ts:58-59 | missing or empty text is shown as null |
| Stickers.CreatorOf | src/tools/stickers.ts:62-67 | the creator is shown exactly when known, as its id and username |
| Stickers.StickerRowFields | src/tools/stickers.ts:55-68 | description and tags are null exactly when empty, `available` is false only when the flag is false, and the format is named |
| Stickers.ListStickersRows | src/tools/stickers.ts:47-85 | listing changes nothing and has one row per sticker, with `count` equal to their number |
| Stickers.StickerGuild | src/tools/stickers.ts:158-167 | sticker changes need ManageGuildExpressions, and the refusal names the guild |
| Stickers.CreateStickerData | src/tools/stickers.ts:183-189 | the create payload is the file, name, tags and description, plus the reason when given |
| Stickers.CreateStickerGates | src/tools/stickers.ts:153-212 | a sticker is created exactly when the permission holds and the guild is eligible (verified, partnered or boost tier 2 or more); otherwise nothing is created |
| Stickers.FindSticker | src/tools/stickers.ts:294-298 | a sticker is found exactly when one has that id |
| Stickers.FetchSticker | src/tools/stickers.ts:294-298 | a missing sticker is InvalidInput("stickerId", "Sticker not found") |
| Stickers.StickerChanges | src/tools/stickers.ts:301-306 | the edit holds exactly the given name, description, tags and reason, each with its given value |
| Stickers.EditedKeepsOthers | src/tools/stickers.ts:308-316 | the edited sticker keeps its id, format, availability, creator and every field not given, and takes every field given |
| Stickers.StickersNeedPermission | src/tools/stickers.ts:283-292 | without ManageGuildExpressions, modify and delete fail with PermissionDenied |
| Stickers.StickerLookup | src/tools/stickers.ts:372-413 | modify and delete of a missing sticker fail with InvalidInput; an existing one is edited or deleted by exactly one call |
| LineSplitter.Truncated | scripts/update-forum-thread.js:21 | a long line becomes its first maxLength-3 characters followed by "...", so exactly maxLength long when maxLength >= 3; the same code is copied at `scripts/post-all-forums.js:21`, `scripts/post-paper-reading.js:21` |
| LineSplitter.SplitContent | scripts/update-forum-thread.js:12-28 | the accumulator loop computes exactly the specification `Chunks`, in the mode given: truncating long lines as here and in `scripts/post-all-forums.js:13-28` and `scripts/post-paper-reading.js:13-28`, keeping them whole as in `scripts/post-math.js:13-28`, or word-wrapping them as in `scripts/post-foundations-welcome.js:22-59` and `scripts/post-deep-learning.js:21-57` |
| LineSplitter.WrapWords | scripts/post-foundations-welcome.js:35-45 | the inner word loop computes exactly the specification `PackWords`; the same code is copied at `scripts/post-deep-learning.js:33-43` |
| LineSplitterFacts.ChunksKeepText | scripts/update-forum-thread.js:13-28 | the chunks hold the text of the shown (possibly truncated) lines, in order, up to whitespace |
| LineSplitterFacts.ChunksKeepContent | scripts/post-math.js:13-28 | without truncation the chunks hold exactly the content's text in order, up to whitespace; the same holds for the word-wrapping copies at `scripts/post-foundations-welcome.js:22-59`, `scripts/post-deep-learning.js:21-57` |
| LineSplitterFacts.TruncatedChunksFit | scripts/update-forum-thread.js:13-28 | for maxLength >= 3 every chunk is at most maxLength long; the same code is copied at `scripts/post-all-forums.js:13-28`, `scripts/post-paper-reading.js:13-28` |
| LineSplitterFacts.KeptChunksAreLines | scripts/post-math.js:18-25 | a chunk longer than maxLength is a single source line |
| LineSplitterFacts.WrappedChunksFit | scripts/post-foundations-welcome.js:35-45 | a chunk longer than maxLength is a single word with no space in it, so long lines are broken only between words; the same code is copied at `scripts/post-deep-learning.js:33-43` |
| LineSplitterFacts.PiecesStayWhole | scripts/post-foundations-welcome.js:27-50 | every non-blank line (or word of a wrapped line) lies whole inside one chunk, so a line that fits is never split; the same code is copied at `scripts/post-deep-learning.js:26-49` |
| LineSplitterFix.EmptyChunkAsWritten | scripts/update-forum-thread.js:18-20 | as written, the content "\n" with maxLength 1 splits into one empty chunk |
| LineSplitterFix.VisibleClean | scripts/update-forum-thread.js:25 | dropping blank chunks keeps the others in order, and leaves no blank chunk |
| LineSplitterFix.WrapWordsVisible | scripts/post-foundations-welcome.js:35-45 | the corrected word loop pushes exactly the non-blank pieces of `PackWords` |
| LineSplitterFix.SplitContentVisible | scripts/update-forum-thread.js:12-28 | the corrected loop computes exactly the non-blank chunks of `Chunks` |
| LineSplitterFix.FixedKeepsText | scripts/post-math.js:18-27 | the corrected chunks still hold the content's text, in order, up to whitespace |
| LineSplitterFix.FixedBounds | scripts/post-all-forums.js:13-28 | the corrected chunks keep each mode's length bound |
| LineSplitterFix.FixedPiecesStayWhole | scripts/post-foundations-welcome.js:27-50 | the corrected chunks still keep every non-blank line or word whole |
| ParagraphSplitter.SplitParagraphs | scripts/repost-with-dates-and-links.js:68-93 | the packing loop computes exactly the specification `ParagraphChunks`; the same code is copied at `scripts/post-remaining-forums.js:53-78` |
| ParagraphSplitter.ParagraphChunksKeepText | scripts/repost-with-dates-and-links.js:73-92 | the chunks hold the content's text in order, up to whitespace |
| ParagraphSplitter.ParagraphChunksFit | scripts/repost-with-dates-and-links.js:69-92 | content that fits is returned unchanged as one chunk; otherwise a chunk longer than maxLength is a single paragraph; the same code is copied at `scripts/post-remaining-forums.js:54-77` |
| ParagraphSplitter.EmptyParagraphChunkAsWritten | scripts/repost-with-dates-and-links.js:76-90 | as written, "aaaa\n\n " with maxLength 4 splits into "aaaa" and an empty chunk |
| ParagraphSplitter.SplitParagraphsVisible | scripts/repost-with-dates-and-links.js:68-93 | the corrected splitter returns fitting content unchanged, and otherwise the non-blank chunks of `ParagraphChunks` |
| ParagraphSplitter.FixedParagraphChunks | scripts/post-remaining-forums.js:53-78 | the corrected chunks are non-blank for non-blank content, hold its text in order, and exceed maxLength only as a single paragraph |
| Sections.ExtractSection | scripts/repost-with-dates-and-links.js:35-65 | the scan loop computes exactly the specification `Section(content, n)`; the same code is copied at `scripts/post-all-am-updates.js:22-52` |
| Sections.ScanLineOk | scripts/repost-with-dates-and-links.js:42-53 | one scan step keeps every finished section well formed: it starts with its numbered header, holds no other header, and is closed by `---` only after five lines; each header adds one section |
| Sections.ScanFromOk | scripts/repost-with-dates-and-links.js:41-57 | after the whole scan, the sections are well formed and there is one per numbered header |
| Sections.GroupsAreSections | scripts/repost-with-dates-and-links.js:41-62 | every extracted section is well formed |
| Sections.GroupsCount | scripts/post-all-am-updates.js:28-50 | there are exactly as many sections as numbered headers |
| Sections.NoHeaderNoScan | scripts/repost-with-dates-and-links.js:41-57 | lines without a numbered header leave the scan where it began |
| Sections.LeadingLinesDiscarded | scripts/repost-with-dates-and-links.js:41-57 | lines before the first numbered header are discarded |
| Sections.LinesAfterCloseDiscarded | scripts/repost-with-dates-and-links.js:49-57 | after a close, lines up to the next header are discarded |
| Sections.SectionFound | scripts/repost-with-dates-and-links.js:64 | the result is "" exactly when n is out of range; otherwise it starts with the n-th numbered header |
| Sections.SectionOfNothing | scripts/post-all-am-updates.js:129-141 | a missing file's "" yields "" for every section |
| Sections.FindHeadingFinds | scripts/post-remaining-forums.js:37 | the index found is the first line that trims to the heading, and none means no line does |
| Sections.NextMajor | scripts/post-remaining-forums.js:41-47 | the end is the first later line matching `## [A-Z]`, or the end of input |
| Sections.ExtractSectionByName | scripts/post-remaining-forums.js:35-50 | the scan loop with `break` computes exactly the specification `SectionByName` |
| Sections.FirstMajorUnique | scripts/post-remaining-forums.js:41-47 | any index with no major header before it and one at it is the section's end |
| Sections.SectionByNameMissing | scripts/post-remaining-forums.js:36-39 | when no line trims to "## name", the result is "" |
| Sections.SectionByNameFrom | scripts/post-remaining-forums.js:41-49 | the result is the trimmed lines from the first matching heading up to the next major header |
| Sections.FindHeadingFirst | scripts/post-remaining-forums.js:37 | the search finds the first matching line |
| Sections.SectionByNameHoldsHeading | scripts/post-remaining-forums.js:36-49 | a found section contains its own heading |
| Sections.NumberedIsNotMajor | scripts/post-remaining-forums.js:43 | a numbered header such as "## 1." does not end a named section |
| Posting.Outbox.Deliver | scripts/post-math.js:46 | a post is recorded exactly when the platform accepts it |
| Posting.Accepted | scripts/post-paper-reading.js:49-53 | the accepted posts are a prefix of the posts; all are accepted exactly when none exceeds the platform's capacity |
| Posting.DeliverAll | scripts/post-paper-reading.js:44-53 | the posts are delivered in order, and delivery stops at the first rejection |
| Posting.MessagesOfSends | scripts/post-all-forums.js:123-129 | the messages of a run of sends are the sent texts in order |
| Posting.ThreadShowsChunks | scripts/post-all-forums.js:118-129 | a thread opened with chunk 0 and followed by the rest shows exactly the chunks in order; the same code is copied at `scripts/post-foundations-welcome.js:85-99`, `scripts/post-deep-learning.js:81-94`, `scripts/post-paper-reading.js:44-53` |
| Posting.PostThread | scripts/post-all-forums.js:103-137 | a missing forum, or content with no chunk (the thread's first message would be empty), posts nothing and fails; otherwise the thread posts (and the pin when asked) are delivered in order up to the first rejection, succeeding exactly when all are accepted; `scripts/post-foundations-welcome.js:82-103` is the same with the thread pinned last |
| Posting.PinnedIsFirst | scripts/post-math.js:44-52 | the first message sent is the one pinned, and the messages are the chunks in order |
| Posting.PostPinned | scripts/post-math.js:44-52 | the chunks are sent in order and then the first one is pinned; success needs at least one chunk |
| Posting.PostForums | scripts/post-all-forums.js:145-164 | successful + failed is the number of forum configs, and every config whose forum is missing counts as failed |
| Updates.UpdateEmbeds | scripts/repost-with-dates-and-links.js:124-145 | the first embed has the full title and the forum footer; embed i (from 1) is "title (continued - part i+1)" with chunk i |
| Updates.DescriptionsOfEmbeds | scripts/repost-with-dates-and-links.js:124-145 | the embed descriptions are the chunks in order |
| Updates.UpdateShowsChunks | scripts/post-remaining-forums.js:89-130 | an update, including a newly opened "Updates" thread, shows exactly the chunks in order |
| Updates.PostUpdate | scripts/repost-with-dates-and-links.js:95-153 | a missing forum posts nothing and fails; content with no chunk opens the thread when needed and then fails; otherwise the thread is opened when needed and the non-blank paragraph chunks of at most 3800 characters are posted as embeds, in order, succeeding exactly when all are accepted; the same code is copied at `scripts/post-remaining-forums.js:80-138` |
| Updates.TextPosts | scripts/post-remaining-forums.js:155-158 | one message per chunk, each its header followed by the chunk |
| Updates.TextMessage | scripts/post-remaining-forums.js:155-158 | message i ends with chunk i; only the first carries the bold full title, and later ones say "(continued - part i+1)" |
| Updates.HeaderThenChunk | scripts/repost-with-dates-and-links.js:251-254 | a text post is its header then the chunk, and only the first header is the full title |
| Updates.TextMessagesCount | scripts/post-remaining-forums.js:155-158 | there are exactly as many text messages as chunks |
| Updates.ContinuedIsNotFull | scripts/post-remaining-forums.js:156 | a continuation header is never taken for the full title |
| Updates.PostToTextChannel | scripts/post-remaining-forums.js:140-167 | a missing text channel posts nothing; otherwise the non-blank paragraph chunks of at most 1800 characters are posted in order, each with its header |
| Updates.Description | scripts/post-all-am-updates.js:78 | the description is the content's first 4000 characters |
| Updates.DescriptionWhole | scripts/post-all-am-updates.js:78 | the description is the whole content exactly when it is at most 4000 characters |
| Updates.PostDigest | scripts/post-all-am-updates.js:54-91 | a missing forum posts nothing; otherwise one embed with the truncated content is posted, after opening the thread when needed |
| Updates.TallyBalanced | scripts/repost-with-dates-and-links.js:207-213 | total counts the attempts, total = successful + failed, and `failedForums` lists exactly the failures in order |
| Updates.TallyFromZero | scripts/post-all-am-updates.js:143-182 | tallying from zero is the tally of the run |
| Updates.TallyStep | scripts/post-remaining-forums.js:256-257 | one more attempt adds one outcome to the tally |
| Updates.Stats.constructor | scripts/repost-with-dates-and-links.js:190 | the stats start at zero with no failed forums |
| Updates.Stats.Record | scripts/repost-with-dates-and-links.js:208-212 | recording an attempt increments total and either successful, or failed with the forum appended |
| Updates.LongEnoughNotBlank | scripts/repost-with-dates-and-links.js:237 | content posted for its length has over 100 non-blank characters |
| Updates.MissingFilePostsNothing | scripts/post-all-am-updates.js:129-141 | a section of a missing file is never long enough to post |
| Updates.Attempts | scripts/post-all-am-updates.js:143-181 | only entries that pass the gate are attempted, in order |
| Updates.ForumsOf | scripts/post-all-am-updates.js:149 | one forum per attempt |
| Updates.PostUpdates | scripts/repost-with-dates-and-links.js:206-277 | the stats end as the tally of the attempted entries, and an entry whose forum or channel is missing counts as failed; the same code is copied at `scripts/post-remaining-forums.js:245-262`, `scripts/post-all-am-updates.js:143-182` |
| Updates.PostOne | scripts/repost-with-dates-and-links.js:240-273 | an entry whose forum or text channel is missing posts nothing and fails |
| Reconcile.Edits | scripts/update-forum-thread.js:128-136 | existing message i is edited to chunk i, for i below min(existing, chunks) |
| Reconcile.Adds | scripts/update-forum-thread.js:139-150 | chunks beyond the existing messages are added in order |
| Reconcile.Removes | scripts/update-forum-thread.js:153-164 | messages beyond the chunks are removed in order |
| Reconcile.PlanReplace | scripts/update-forum-thread.js:127-164 | the three loops compute exactly the specification `Plan` |
| Reconcile.CountsAppend | scripts/update-forum-thread.js:169-174 | the counts of a joined plan add up |
| Reconcile.PlanCounts | scripts/update-forum-thread.js:169-174 | updated = min(existing, chunks), added = max(0, chunks-existing), removed = max(0, existing-chunks), so updated + added = chunks and updated + removed = existing |
| Reconcile.PlanReplaces | scripts/update-forum-thread.js:127-164 | running the plan on the existing thread leaves exactly the chunks, in order |
| Reconcile.PlanGrows | scripts/update-forum-thread.js:139-150 | when the content grew, editing then adding leaves exactly the chunks |
| Reconcile.PlanShrinks | scripts/update-forum-thread.js:153-164 | when the content shrank, editing then removing leaves exactly the chunks |
| Reconcile.Fetched | scripts/update-forum-thread.js:98-99 | at most 100 existing messages are fetched, and all of them when there are no more |
| Reconcile.UpdateForumThread | scripts/update-forum-thread.js:54-185 | an unknown forum, a missing file, forum or "START HERE" thread, or a rejected thread or message fetch returns false and sends nothing; append mode sends one note and returns whether it was accepted; a replace dry run sends nothing and returns true; otherwise the plan over the non-blank 1900-character chunks runs, its counts are reported, and the result is whether the update log was written |

## Left out

- The Discord client. `src/discord/client.ts` is not part of this model; `getClient()` is modelled only as "connected, or a not-connected error".
- The platform's replies: new ids, channel positions, timestamps, member counts and other echoed fields of the success outputs. For example, bulk delete's `deletedCount` is the number of messages selected, and bulk overwrite's count is the number of entries.
- Library fetches that reject instead of resolving to null, for commands, stickers, rules and unknown channels: the model reports these as the handler's own not-found error.
- `get_server_info` and `set_channel_permissions`: they are not among the modelled handlers.
- Message fetch cursors (`before`, `after`) of `read_messages`: the model reads the newest page.
- Search text in `find_threads`: matched with ASCII-only lower-casing.
- Lengths: JavaScript counts UTF-16 code units; the model counts characters.
- Channels.ListChannelsSorted: states sortedness and permutation, but not that equal positions keep their order.
- Audit-log rows: the action name, executor username and timestamp are not modelled.
- Automod rows: the rows of `list_automod_rules` and the detail fields of `get_automod_rule` are not modelled.
- Sticker outputs:
  - the output of `modify_sticker` is taken as the edited sticker;
  - the file of `create_sticker` is passed through without being read.
- Command option choices: their values are modelled as integers, not floating-point numbers.
- Sticker format 4 (GIF) is reported as UNKNOWN, as the code does.
- Logging, rate-limit delays, progress output, what `logUpdate` writes (only whether the write succeeds is an input), the update notification, and the `#mod-content` summary embed: all I/O without a result.
- URL and date-time formats in the schemas: the `.url()` checks (src/types/schemas.ts:12, 18, 23, 28, 34, 35, 71, 127) and the `.datetime()` checks (src/types/schemas.ts:14, 87, 88) are not modelled; those members are strings of any form. Zod's URL and ISO 8601 parsers are library code.
- Wall-clock values (dates, times, ISO timestamps, the 14-day cutoff's "now") are parameters.
- File reads and `existsSync` are inputs. In `repost-with-dates-and-links.js` a missing individual file makes `readFileSync` throw outside any handler; the model treats the file as present.
- Posting.PostForums: states the balance and that a missing forum fails, not which later step failed.
- Updates.PostOne: states only that a missing forum or channel fails; which later post failed is part of the outbox contents.
- Reconcile.UpdateForumThread: append mode is checked before the dry-run flag, so a dry run in append mode still sends its note. This is modelled as written.
- Reconcile.UpdateForumThread: in replace mode each edit, send or delete is caught on its own (scripts/update-forum-thread.js:127-165) and does not change the result; the member returns the planned operations and does not say which of them the platform rejected. The final notification catches its own errors and is not modelled.
- Messaging.EditMessageFallback: an empty embeds array is truthy in JavaScript, so only absent embeds fall back. This is modelled as written.
- Automod metadata: a zero `mentionLimit` or `durationSeconds`, or an empty alert channel id, is skipped as falsy. This is modelled as written.

## Findings

| source | as written | input that shows it | evidently intended | confidence | as-written member | corrected member |
|---|---|---|---|---|---|---|
| scripts/update-forum-thread.js:18-20 (and the line splitters of post-all-forums.js, post-paper-reading.js, post-math.js, post-foundations-welcome.js, post-deep-learning.js) | a whitespace-only chunk is flushed as `currentChunk.trim()`, which pushes an empty message | content "\n" with maxLength 1 gives `[""]` | no blank chunk is ever pushed, as the final `if (currentChunk.trim())` intends | not executed | LineSplitterFix.EmptyChunkAsWritten | LineSplitterFix.SplitContentVisible |
| scripts/repost-with-dates-and-links.js:76-90 (and post-remaining-forums.js:61-75) | a paragraph that trims to nothing is pushed as an empty chunk | "aaaa\n\n " with maxLength 4 gives `["aaaa", ""]` | only non-blank chunks are posted | not executed | ParagraphSplitter.EmptyParagraphChunkAsWritten | ParagraphSplitter.SplitParagraphsVisible |

The posting, update and reconcile models split text with the corrected splitters, so they never send a blank message.
