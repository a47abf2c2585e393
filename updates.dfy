/** The morning-update scripts: each update is posted to its forum's
    "Updates" thread (or to a text channel), and a `stats` record counts the
    attempts, the successes and the failures. Dates, times and the year are
    parameters. */
module Updates {
  import opened Wrappers
  import opened Text
  import opened ParagraphSplitter
  import opened Sections
  import opened Posting

  /** The sun emoji and variation selector that open every update title. */
  const Sun: string := "\U{2600}\U{FE0F} "
  const UpdateColor: nat := 0xffa500
  const WeeklyNote: string := "Weekly updates with new resources, papers, tools, and developments."

  /** `t.name.includes("Updates") || t.name.includes("2025")` */
  predicate IsUpdateThread(name: string) {
    Contains(name, "Updates") || Contains(name, "2025")
  }

  predicate HasUpdateThread(threads: seq<string>) {
    exists k | 0 <= k < |threads| :: IsUpdateThread(threads[k])
  }

  function UpdateThreadName(year: string): string {
    "\U{1F4C5} " + year + " Updates & New Content"
  }

  /** The wall clock, as the scripts format it. */
  datatype Clock = Clock(year: string, date: string, time: string)

  /** The forums (with the names of their active threads) and the text
      channels of the guild. */
  datatype Guild = Guild(forums: map<string, seq<string>>, textChannels: set<string>)

  /** Creates the "Updates" thread when the forum has none. */
  function ThreadOpening(threads: seq<string>, year: string): seq<Post> {
    if HasUpdateThread(threads) then [] else [OpenThread(UpdateThreadName(year), Some(WeeklyNote))]
  }

  function FullTitle(title: string, clock: Clock): string {
    Sun + title + " - " + clock.date + " at " + clock.time
  }

  function ContinuedTitle(title: string, part: nat): string {
    title + " (continued - part " + NatToString(part) + ")"
  }

  /** The embeds of a chunked update: the first with the full title and the
      forum footer, the rest numbered from part 2. */
  function UpdateEmbeds(title: string, fullTitle: string, forum: string, chunks: seq<string>): (r: seq<Post>)
    ensures |r| == if chunks == [] then 1 else |chunks|
    ensures r[0] == SendEmbed(Embed(fullTitle, First(chunks), UpdateColor, Some(forum + " \U{2022} Morning Update")))
    ensures forall i | 1 <= i < |chunks| ::
      r[i] == SendEmbed(Embed(ContinuedTitle(title, i + 1), Some(chunks[i]), UpdateColor, None))
  {
    [SendEmbed(Embed(fullTitle, First(chunks), UpdateColor, Some(forum + " \U{2022} Morning Update")))]
    + seq(if chunks == [] then 0 else |chunks| - 1,
          k requires 0 <= k < |chunks| - 1 => SendEmbed(Embed(ContinuedTitle(title, k + 2), Some(chunks[k + 1]), UpdateColor, None)))
  }

  /** The descriptions of the embeds among `posts`, in order. */
  function Descriptions(posts: seq<Post>): seq<string>
    decreases |posts|
  {
    if posts == [] then []
    else
      Descriptions(posts[..|posts| - 1])
      + match posts[|posts| - 1]
        case SendEmbed(Embed(_, Some(d), _, _)) => [d]
        case _ => []
  }

  lemma {:induction false} DescriptionsOfEmbeds(title: string, fullTitle: string, forum: string, chunks: seq<string>, n: nat)
    requires 1 <= n <= |chunks|
    ensures Descriptions(UpdateEmbeds(title, fullTitle, forum, chunks)[..n]) == chunks[..n]
    decreases n
  {
    var r := UpdateEmbeds(title, fullTitle, forum, chunks);
    if n == 1 {
      assert r[..1][..0] == [];
    } else {
      DescriptionsOfEmbeds(title, fullTitle, forum, chunks, n - 1);
      assert r[..n][..n - 1] == r[..n - 1];
      assert chunks[..n] == chunks[..n - 1] + [chunks[n - 1]];
    }
  }

  /** Read in order, the embeds of an update carry exactly its chunks. */
  lemma UpdateShowsChunks(threads: seq<string>, clock: Clock, title: string, forum: string, chunks: seq<string>)
    requires chunks != []
    ensures Descriptions(ThreadOpening(threads, clock.year) + UpdateEmbeds(title, FullTitle(title, clock), forum, chunks)) == chunks
  {
    var embeds := UpdateEmbeds(title, FullTitle(title, clock), forum, chunks);
    DescriptionsOfEmbeds(title, FullTitle(title, clock), forum, chunks, |chunks|);
    assert embeds[..|chunks|] == embeds;
    assert chunks[..|chunks|] == chunks;
    DescriptionsAppend(ThreadOpening(threads, clock.year), embeds);
    if !HasUpdateThread(threads) {
      assert [OpenThread(UpdateThreadName(clock.year), Some(WeeklyNote))][..0] == [];
    }
  }

  lemma {:induction false} DescriptionsAppend(a: seq<Post>, b: seq<Post>)
    ensures Descriptions(a + b) == Descriptions(a) + Descriptions(b)
    decreases |b|
  {
    if b == [] {
      assert a + b == a;
    } else {
      assert (a + b)[..|a + b| - 1] == a + b[..|b| - 1];
      DescriptionsAppend(a, b[..|b| - 1]);
    }
  }

  /** `postUpdate` of the re-posting scripts: nothing when the forum is
      missing; otherwise the "Updates" thread is created if need be and the
      content goes out as embeds of at most 3800-character chunks. Content
      with no chunk fails after the thread is opened: the first embed's
      description is then `undefined`, which `setDescription` refuses (it
      takes a string or null). */
  method PostUpdate(out: Outbox, guild: Guild, forum: string, content: string, title: string, clock: Clock)
    returns (ok: bool)
    modifies out
    ensures forum !in guild.forums ==> !ok && out.posts == old(out.posts)
    ensures forum in guild.forums && Paragraphs(content, 3800) == [] ==>
      var opening := ThreadOpening(guild.forums[forum], clock.year);
      !ok && out.posts == old(out.posts) + Accepted(opening, |old(out.posts)|, out.capacity)
    ensures forum in guild.forums && Paragraphs(content, 3800) != [] ==>
      var all := ThreadOpening(guild.forums[forum], clock.year)
                 + UpdateEmbeds(title, FullTitle(title, clock), forum, Paragraphs(content, 3800));
      out.posts == old(out.posts) + Accepted(all, |old(out.posts)|, out.capacity)
      && (ok <==> |Accepted(all, |old(out.posts)|, out.capacity)| == |all|)
  {
    if forum !in guild.forums {
      return false;
    }
    var chunks := SplitParagraphsVisible(content, 3800);
    if chunks == [] {
      var _ := DeliverAll(out, ThreadOpening(guild.forums[forum], clock.year));
      return false;
    }
    ok := DeliverAll(out, ThreadOpening(guild.forums[forum], clock.year)
                          + UpdateEmbeds(title, FullTitle(title, clock), forum, chunks));
  }

  /** The bold header of the `i`-th message to a text channel. */
  function Header(fullTitle: string, i: nat): string {
    if i == 0 then "**" + fullTitle + "**\n\n"
    else "**(continued - part " + NatToString(i + 1) + ")**\n\n"
  }

  function TextPosts(fullTitle: string, chunks: seq<string>): (r: seq<Post>)
    ensures |r| == |chunks|
    ensures forall i | 0 <= i < |r| :: r[i] == Send(Header(fullTitle, i) + chunks[i])
  {
    seq(|chunks|, i requires 0 <= i < |chunks| => Send(Header(fullTitle, i) + chunks[i]))
  }

  /** Each text-channel message is its header followed by its chunk, and
      only the first carries the full title. */
  lemma TextMessage(title: string, clock: Clock, chunks: seq<string>, i: nat)
    requires i < |chunks|
    ensures var fullTitle := FullTitle(title, clock);
      var m := Messages(TextPosts(fullTitle, chunks));
      i < |m| && |Header(fullTitle, i)| <= |m[i]| && m[i][|Header(fullTitle, i)|..] == chunks[i]
      && StartsWith(m[i], "**") && (i == 0 <==> StartsWith(m[i], "**" + fullTitle + "**"))
  {
    var fullTitle := FullTitle(title, clock);
    var texts := seq(|chunks|, k requires 0 <= k < |chunks| => Header(fullTitle, k) + chunks[k]);
    assert TextPosts(fullTitle, chunks) == Sends(texts);
    MessagesOfSends(texts);
    HeaderThenChunk(title, clock, i, chunks[i]);
  }

  lemma HeaderThenChunk(title: string, clock: Clock, i: nat, chunk: string)
    ensures var fullTitle := FullTitle(title, clock);
      var message := Header(fullTitle, i) + chunk;
      message[|Header(fullTitle, i)|..] == chunk
      && StartsWith(message, "**") && (i == 0 <==> StartsWith(message, "**" + fullTitle + "**"))
  {
    var fullTitle := FullTitle(title, clock);
    var message := Header(fullTitle, i) + chunk;
    assert message[..2] == Header(fullTitle, i)[..2];
    if i > 0 {
      assert StartsWith(fullTitle, Sun) by {
        assert fullTitle[..|Sun|] == Sun;
      }
      ContinuedIsNotFull(fullTitle, i, message);
    } else {
      assert message[..|"**" + fullTitle + "**"|] == "**" + fullTitle + "**";
    }
  }

  /** There is one text-channel message per chunk. */
  lemma TextMessagesCount(fullTitle: string, chunks: seq<string>)
    ensures |Messages(TextPosts(fullTitle, chunks))| == |chunks|
  {
    var texts := seq(|chunks|, k requires 0 <= k < |chunks| => Header(fullTitle, k) + chunks[k]);
    assert TextPosts(fullTitle, chunks) == Sends(texts);
    MessagesOfSends(texts);
  }

  /** A continuation header is never mistaken for the first: the full title
      opens with the sun emoji, the continuation with a parenthesis. */
  lemma ContinuedIsNotFull(fullTitle: string, i: nat, message: string)
    requires i > 0 && StartsWith(message, Header(fullTitle, i))
    requires StartsWith(fullTitle, Sun)
    ensures !StartsWith(message, "**" + fullTitle + "**")
  {
    assert message[2] == '(';
    assert ("**" + fullTitle + "**")[2] == fullTitle[0] == '\U{2600}';
  }

  /** `postToTextChannel`: nothing when the channel is missing; otherwise one
      message per chunk of at most 1800 characters, each with its header. */
  method PostToTextChannel(out: Outbox, guild: Guild, channel: string, content: string, title: string, clock: Clock)
    returns (ok: bool)
    modifies out
    ensures channel !in guild.textChannels ==> !ok && out.posts == old(out.posts)
    ensures channel in guild.textChannels ==>
      var all := TextPosts(FullTitle(title, clock), Paragraphs(content, 1800));
      out.posts == old(out.posts) + Accepted(all, |old(out.posts)|, out.capacity)
      && (ok <==> |Accepted(all, |old(out.posts)|, out.capacity)| == |all|)
  {
    if channel !in guild.textChannels {
      return false;
    }
    var chunks := SplitParagraphsVisible(content, 1800);
    ok := DeliverAll(out, TextPosts(FullTitle(title, clock), chunks));
  }

  /** `content.substring(0, 4000)` */
  function Description(content: string): (r: string)
    ensures r <= content
    ensures |r| == if |content| <= 4000 then |content| else 4000
  {
    content[..if |content| <= 4000 then |content| else 4000]
  }

  /** A description is the whole content exactly when the content fits. */
  lemma DescriptionWhole(content: string)
    ensures Description(content) == content <==> |content| <= 4000
  {
  }

  /** `postUpdate` of `post-all-am-updates`: one embed holding the first 4000
      characters, with the forum and the date in its footer. */
  function DigestPosts(threads: seq<string>, clock: Clock, forum: string, content: string, title: string): seq<Post> {
    ThreadOpening(threads, clock.year)
    + [SendEmbed(Embed(Sun + title, Some(Description(content)), UpdateColor, Some(forum + " \U{2022} " + clock.date)))]
  }

  method PostDigest(out: Outbox, guild: Guild, forum: string, content: string, title: string, clock: Clock)
    returns (ok: bool)
    modifies out
    ensures forum !in guild.forums ==> !ok && out.posts == old(out.posts)
    ensures forum in guild.forums ==>
      var all := DigestPosts(guild.forums[forum], clock, forum, content, title);
      out.posts == old(out.posts) + Accepted(all, |old(out.posts)|, out.capacity)
      && (ok <==> |Accepted(all, |old(out.posts)|, out.capacity)| == |all|)
  {
    if forum !in guild.forums {
      return false;
    }
    ok := DeliverAll(out, DigestPosts(guild.forums[forum], clock, forum, content, title));
  }

  /** The counters of `stats` as a value. */
  datatype Tally = Tally(total: nat, successful: nat, failed: nat, failedForums: seq<string>)

  /** One attempted update: `total` grows, then `successful`, or `failed`
      together with `failedForums`. */
  function Count(t: Tally, forum: string, success: bool): Tally {
    if success then t.(total := t.total + 1, successful := t.successful + 1)
    else t.(total := t.total + 1, failed := t.failed + 1, failedForums := t.failedForums + [forum])
  }

  /** The tally of a run, from zero. */
  function Tallied(forums: seq<string>, outcomes: seq<bool>): Tally
    requires |forums| == |outcomes|
    decreases |forums|
  {
    if forums == [] then Tally(0, 0, 0, [])
    else
      var n := |forums| - 1;
      Count(Tallied(forums[..n], outcomes[..n]), forums[n], outcomes[n])
  }

  /** The forums whose update failed, in order. */
  function Failures(forums: seq<string>, outcomes: seq<bool>): seq<string>
    requires |forums| == |outcomes|
    decreases |forums|
  {
    if forums == [] then []
    else
      var n := |forums| - 1;
      Failures(forums[..n], outcomes[..n]) + (if outcomes[n] then [] else [forums[n]])
  }

  function Successes(outcomes: seq<bool>): nat
    decreases |outcomes|
  {
    if outcomes == [] then 0
    else Successes(outcomes[..|outcomes| - 1]) + (if outcomes[|outcomes| - 1] then 1 else 0)
  }

  /** Every attempt is counted once, as a success or a failure, and
      `failedForums` lists exactly the failures, in order. */
  lemma {:induction false} TallyBalanced(forums: seq<string>, outcomes: seq<bool>)
    requires |forums| == |outcomes|
    ensures var t := Tallied(forums, outcomes);
      t.total == |forums| && t.successful + t.failed == t.total
      && t.successful == Successes(outcomes)
      && t.failedForums == Failures(forums, outcomes) && |t.failedForums| == t.failed
    decreases |forums|
  {
    if forums != [] {
      var n := |forums| - 1;
      TallyBalanced(forums[..n], outcomes[..n]);
    }
  }

  /** The `stats` object of the update scripts. */
  class Stats {
    var total: nat
    var successful: nat
    var failed: nat
    var failedForums: seq<string>

    constructor ()
      ensures Snapshot() == Tally(0, 0, 0, [])
    {
      total, successful, failed, failedForums := 0, 0, 0, [];
    }

    function Snapshot(): Tally
      reads this
    {
      Tally(total, successful, failed, failedForums)
    }

    /** The counter updates around one `postUpdate` call. */
    method Record(forum: string, success: bool)
      modifies this
      ensures Snapshot() == Count(old(Snapshot()), forum, success)
    {
      total := total + 1;
      if success {
        successful := successful + 1;
      } else {
        failed := failed + 1;
        failedForums := failedForums + [forum];
      }
    }
  }

  /** `update.content && update.content.trim().length > 100` */
  predicate LongEnough(content: string) {
    content != [] && |Trim(content)| > 100
  }

  /** Only a text with something besides whitespace is long enough. */
  lemma LongEnoughNotBlank(content: string)
    requires LongEnough(content)
    ensures !IsBlank(content) && |content| > 100
  {
  }

  /** No section of a missing combined file is ever posted. */
  lemma MissingFilePostsNothing(n: int)
    ensures !LongEnough(Section("", n))
  {
    SectionOfNothing(n);
  }

  /** One entry of an update table; `onDisk` is whether its file exists. */
  datatype Update = Update(forum: string, content: string, title: string, textChannel: bool, onDisk: bool)

  /** Which entries a loop attempts: all of them, those whose file exists, or
      those whose content is long enough. */
  datatype Gate = Always | FileExists | ContentLength

  /** Which `postUpdate` the script has. */
  datatype Style = Chunked | Digest

  predicate Attempted(u: Update, gate: Gate) {
    match gate
    case Always => true
    case FileExists => u.onDisk
    case ContentLength => LongEnough(u.content)
  }

  /** The attempted entries, in order. */
  function Attempts(updates: seq<Update>, gate: Gate): (r: seq<Update>)
    ensures |r| <= |updates|
    ensures forall k | 0 <= k < |r| :: Attempted(r[k], gate)
    decreases |updates|
  {
    if updates == [] then []
    else
      var n := |updates| - 1;
      Attempts(updates[..n], gate) + (if Attempted(updates[n], gate) then [updates[n]] else [])
  }

  function ForumsOf(updates: seq<Update>): (r: seq<string>)
    ensures |r| == |updates|
  {
    seq(|updates|, k requires 0 <= k < |updates| => updates[k].forum)
  }

  /** The forum, or for a text-channel entry the text channel, is missing. */
  predicate Unreachable(guild: Guild, u: Update) {
    if u.textChannel then u.forum !in guild.textChannels else u.forum !in guild.forums
  }

  /** Tallying a run from a given tally. */
  function TallyFrom(t: Tally, forums: seq<string>, outcomes: seq<bool>): Tally
    requires |forums| == |outcomes|
    decreases |forums|
  {
    if forums == [] then t
    else
      var n := |forums| - 1;
      Count(TallyFrom(t, forums[..n], outcomes[..n]), forums[n], outcomes[n])
  }

  /** From zero, tallying a run is `Tallied`. */
  lemma {:induction false} TallyFromZero(forums: seq<string>, outcomes: seq<bool>)
    requires |forums| == |outcomes|
    ensures TallyFrom(Tally(0, 0, 0, []), forums, outcomes) == Tallied(forums, outcomes)
    decreases |forums|
  {
    if forums != [] {
      TallyFromZero(forums[..|forums| - 1], outcomes[..|forums| - 1]);
    }
  }

  /** One loop of an update script: every entry the gate lets through is
      posted and recorded in `stats`, in order; the others are skipped. An
      entry whose forum or channel is missing is recorded as a failure. */
  method PostUpdates(out: Outbox, stats: Stats, guild: Guild, updates: seq<Update>, gate: Gate, style: Style, clock: Clock)
    returns (ghost outcomes: seq<bool>)
    modifies out, stats
    ensures |outcomes| == |Attempts(updates, gate)|
    ensures stats.Snapshot() == TallyFrom(old(stats.Snapshot()), ForumsOf(Attempts(updates, gate)), outcomes)
    ensures forall k | 0 <= k < |outcomes| :: Unreachable(guild, Attempts(updates, gate)[k]) ==> !outcomes[k]
  {
    outcomes := [];
    for i := 0 to |updates|
      invariant Logged(old(stats.Snapshot()), stats.Snapshot(), guild, Attempts(updates[..i], gate), outcomes)
    {
      var update := updates[i];
      ghost var done := Attempts(updates[..i], gate);
      AttemptsStep(updates, i, gate);
      if Attempted(update, gate) {
        ghost var before := stats.Snapshot();
        var success := PostOne(out, guild, update, style, clock);
        assert stats.Snapshot() == before;
        stats.Record(update.forum, success);
        LoggedStep(old(stats.Snapshot()), before, guild, done, outcomes, update, success);
        outcomes := outcomes + [success];
        assert Attempts(updates[..i + 1], gate) == done + [update];
      } else {
        assert Attempts(updates[..i + 1], gate) == done;
      }
    }
    assert updates[..|updates|] == updates;
  }

  /** The loop's invariant: `t` is the tally of the attempts `done` from
      `t0`, and every unreachable attempt is recorded as failed. */
  ghost predicate Logged(t0: Tally, t: Tally, guild: Guild, done: seq<Update>, outcomes: seq<bool>) {
    && |outcomes| == |done|
    && t == TallyFrom(t0, ForumsOf(done), outcomes)
    && forall k | 0 <= k < |outcomes| :: Unreachable(guild, done[k]) ==> !outcomes[k]
  }

  /** Recording one more attempt keeps the invariant. */
  lemma LoggedStep(t0: Tally, t: Tally, guild: Guild, done: seq<Update>, outcomes: seq<bool>, u: Update, success: bool)
    requires Logged(t0, t, guild, done, outcomes)
    requires Unreachable(guild, u) ==> !success
    ensures Logged(t0, Count(t, u.forum, success), guild, done + [u], outcomes + [success])
  {
    TallyStep(t0, done, u, outcomes, success);
    UnreachableStep(guild, done, u, outcomes, success);
  }

  /** One more entry of the list adds it to the attempts exactly when the
      gate lets it through. */
  lemma AttemptsStep(updates: seq<Update>, i: nat, gate: Gate)
    requires i < |updates|
    ensures Attempts(updates[..i + 1], gate)
         == Attempts(updates[..i], gate) + (if Attempted(updates[i], gate) then [updates[i]] else [])
  {
    assert updates[..i + 1][..i] == updates[..i];
  }

  /** Recording a failure for an unreachable entry keeps every unreachable
      entry recorded as failed. */
  lemma UnreachableStep(guild: Guild, done: seq<Update>, u: Update, outcomes: seq<bool>, success: bool)
    requires |done| == |outcomes|
    requires forall k | 0 <= k < |outcomes| :: Unreachable(guild, done[k]) ==> !outcomes[k]
    requires Unreachable(guild, u) ==> !success
    ensures forall k | 0 <= k < |outcomes| + 1 :: Unreachable(guild, (done + [u])[k]) ==> !(outcomes + [success])[k]
  {
  }

  lemma TallyStep(t: Tally, done: seq<Update>, u: Update, outcomes: seq<bool>, success: bool)
    requires |done| == |outcomes|
    ensures TallyFrom(t, ForumsOf(done + [u]), outcomes + [success])
         == Count(TallyFrom(t, ForumsOf(done), outcomes), u.forum, success)
  {
    assert ForumsOf(done + [u])[..|done|] == ForumsOf(done);
    assert (outcomes + [success])[..|outcomes|] == outcomes;
  }

  /** The body of the loop for one attempted entry. */
  method PostOne(out: Outbox, guild: Guild, update: Update, style: Style, clock: Clock) returns (success: bool)
    modifies out
    ensures Unreachable(guild, update) ==> !success && out.posts == old(out.posts)
  {
    if update.textChannel {
      success := PostToTextChannel(out, guild, update.forum, update.content, update.title, clock);
    } else if style == Chunked {
      success := PostUpdate(out, guild, update.forum, update.content, update.title, clock);
    } else {
      success := PostDigest(out, guild, update.forum, update.content, update.title, clock);
    }
  }
}
