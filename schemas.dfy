/** The input validators: a snowflake id, an embed, a message and a channel,
    each as the predicate its schema checks. URL and date-time formats are
    not checked by the model (see the README). */
module Schemas {
  import opened Wrappers
  import opened Text

  /** `/^\d{17,19}$/`: 17 to 19 ASCII digits and nothing else (without the
      `m` flag, `$` matches only at the end of the input). */
  predicate IsSnowflake(s: string) {
    17 <= |s| <= 19 && forall i | 0 <= i < |s| :: IsDigit(s[i])
  }

  function Pow10(k: nat): (r: nat)
    ensures r >= 1
  {
    if k == 0 then 1 else 10 * Pow10(k - 1)
  }

  /** The number of decimal digits of `n` is at most `k` exactly when `n` is
      below `10^k`. */
  lemma {:induction false} DigitCount(n: nat, k: nat)
    requires k >= 1
    ensures |NatToString(n)| <= k <==> n < Pow10(k)
    decreases n
  {
    if n >= 10 {
      if k == 1 {
        assert |NatToString(n)| >= 2 by {
          assert NatToString(n) == NatToString(n / 10) + [(n % 10 + '0' as int) as char];
        }
      } else {
        DigitCount(n / 10, k - 1);
        assert NatToString(n) == NatToString(n / 10) + [(n % 10 + '0' as int) as char];
      }
    }
  }

  /** The decimal rendering of a number is a snowflake exactly when the
      number lies in `[10^16, 10^19)`. */
  lemma SnowflakeOfNumber(n: nat)
    ensures IsSnowflake(NatToString(n)) <==> Pow10(16) <= n < Pow10(19)
  {
    DigitCount(n, 16);
    DigitCount(n, 19);
  }

  datatype Footer = Footer(text: string, iconUrl: Option<string>)
  datatype Author = Author(name: string, url: Option<string>, iconUrl: Option<string>)
  datatype Field = Field(name: string, value: string, inline: Option<bool>)

  /** `embedSchema`'s object: every member optional; `image` and `thumbnail`
      are their URLs. */
  datatype EmbedInput = EmbedInput(
    title: Option<string>,
    description: Option<string>,
    url: Option<string>,
    color: Option<int>,
    timestamp: Option<string>,
    footer: Option<Footer>,
    image: Option<string>,
    thumbnail: Option<string>,
    author: Option<Author>,
    fields: Option<seq<Field>>)

  const MaxTitle := 256
  const MaxDescription := 4096
  const MaxColor := 0xFFFFFF
  const MaxFooter := 2048
  const MaxAuthorName := 256
  const MaxFields := 25
  const MaxFieldName := 256
  const MaxFieldValue := 1024

  predicate AtMost(s: Option<string>, n: nat) {
    s.None? || |s.value| <= n
  }

  predicate ValidField(f: Field) {
    |f.name| <= MaxFieldName && |f.value| <= MaxFieldValue
  }

  predicate ValidEmbed(e: EmbedInput) {
    && AtMost(e.title, MaxTitle)
    && AtMost(e.description, MaxDescription)
    && (e.color.None? || 0 <= e.color.value <= MaxColor)
    && (e.footer.None? || |e.footer.value.text| <= MaxFooter)
    && (e.author.None? || |e.author.value.name| <= MaxAuthorName)
    && (e.fields.None? || (|e.fields.value| <= MaxFields && forall i | 0 <= i < |e.fields.value| :: ValidField(e.fields.value[i])))
  }

  function FieldsText(fields: seq<Field>): nat
    decreases |fields|
  {
    if fields == [] then 0
    else FieldsText(fields[..|fields| - 1]) + |fields[|fields| - 1].name| + |fields[|fields| - 1].value|
  }

  function Len(s: Option<string>): nat {
    if s.None? then 0 else |s.value|
  }

  /** The characters of text an embed carries. */
  function EmbedText(e: EmbedInput): nat {
    Len(e.title) + Len(e.description)
    + (if e.footer.None? then 0 else |e.footer.value.text|)
    + (if e.author.None? then 0 else |e.author.value.name|)
    + (if e.fields.None? then 0 else FieldsText(e.fields.value))
  }

  lemma {:induction false} FieldsTextBound(fields: seq<Field>)
    requires forall i | 0 <= i < |fields| :: ValidField(fields[i])
    ensures FieldsText(fields) <= |fields| * (MaxFieldName + MaxFieldValue)
    decreases |fields|
  {
    if fields != [] {
      FieldsTextBound(fields[..|fields| - 1]);
      assert ValidField(fields[|fields| - 1]);
    }
  }

  /** The schema bounds an embed's text by 256 + 4096 + 2048 + 256 +
      25 * (256 + 1024) characters. */
  lemma ValidEmbedTextBound(e: EmbedInput)
    requires ValidEmbed(e)
    ensures EmbedText(e) <= MaxTitle + MaxDescription + MaxFooter + MaxAuthorName + MaxFields * (MaxFieldName + MaxFieldValue)
  {
    if e.fields.Some? {
      FieldsTextBound(e.fields.value);
    }
  }

  /** `authorSchema`, `attachmentSchema`, `reactionSchema`. */
  datatype MessageAuthor = MessageAuthor(id: string, username: string, discriminator: string, bot: bool, avatar: Option<string>)
  datatype Attachment = Attachment(id: string, filename: string, size: int, url: string, contentType: Option<string>)
  datatype Reaction = Reaction(emoji: string, count: int, me: bool)

  datatype MessageRecord = MessageRecord(
    id: string,
    content: string,
    author: MessageAuthor,
    timestamp: string,
    editedTimestamp: Option<string>,
    attachments: seq<Attachment>,
    embeds: seq<EmbedInput>,
    reactions: Option<seq<Reaction>>)

  predicate ValidMessage(m: MessageRecord) {
    && IsSnowflake(m.id)
    && IsSnowflake(m.author.id)
    && (forall i | 0 <= i < |m.attachments| :: IsSnowflake(m.attachments[i].id))
    && (forall i | 0 <= i < |m.embeds| :: ValidEmbed(m.embeds[i]))
  }

  /** A message is valid or not whatever its reactions, and never without
      snowflake ids for itself and its author. */
  lemma MessageReactionsOptional(m: MessageRecord, reactions: Option<seq<Reaction>>)
    ensures ValidMessage(m) <==> ValidMessage(m.(reactions := reactions))
    ensures ValidMessage(m) ==> IsSnowflake(m.id) && IsSnowflake(m.author.id)
  {
  }

  /** `channelSchema`: `topic` and `parentId` are nullable and optional, so
      `None` is "absent" and `Some(None)` is null. */
  datatype ChannelRecord = ChannelRecord(
    id: string,
    name: string,
    kind: int,
    position: Option<int>,
    topic: Option<Option<string>>,
    nsfw: Option<bool>,
    parentId: Option<Option<string>>)

  predicate ValidChannel(c: ChannelRecord) {
    && IsSnowflake(c.id)
    && (c.parentId.Some? && c.parentId.value.Some? ==> IsSnowflake(c.parentId.value.value))
  }

  /** A parent id that is absent or null is accepted; a present one must be a
      snowflake. */
  lemma ChannelParent(c: ChannelRecord, parent: string)
    ensures ValidChannel(c.(parentId := None)) <==> IsSnowflake(c.id)
    ensures ValidChannel(c.(parentId := Some(None))) <==> IsSnowflake(c.id)
    ensures ValidChannel(c.(parentId := Some(Some(parent)))) <==> IsSnowflake(c.id) && IsSnowflake(parent)
  {
  }
}
