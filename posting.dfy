/** What the content scripts post, in order. The platform is an `Outbox`
    that records every post it accepts and, once its capacity is reached,
    rejects every further post (a rejected call throws in the scripts, which
    stop posting at that point). */
module Posting {
  import opened Wrappers
  import opened Text
  import opened LineSplitter
  import opened LineSplitterFix

  /** An embed as the scripts build it with `EmbedBuilder` (the timestamp is
      left out). */
  datatype Embed = Embed(title: string, description: Option<string>, color: nat, footer: Option<string>)

  datatype Post =
    | OpenThread(name: string, message: Option<string>)  // forum.threads.create({name, message: {content}})
    | Send(content: string)                             // channel.send(content) or thread.send(content)
    | SendEmbed(embed: Embed)                           // send({embeds: [embed]})
    | PinMessage(index: nat)                            // message.pin(), by position in the outbox
    | PinThread                                         // thread.setPin(true)

  class Outbox {
    var posts: seq<Post>
    /** The number of posts the platform accepts; `None` for no limit. */
    const capacity: Option<nat>

    constructor (capacity: Option<nat>)
      ensures posts == [] && this.capacity == capacity
    {
      posts := [];
      this.capacity := capacity;
    }

    predicate Accepts()
      reads this
    {
      capacity.None? || |posts| < capacity.value
    }

    /** One call to the platform: recorded if accepted. */
    method Deliver(p: Post) returns (ok: bool)
      modifies this
      ensures ok == old(Accepts())
      ensures posts == if ok then old(posts) + [p] else old(posts)
    {
      ok := Accepts();
      if ok {
        posts := posts + [p];
      }
    }
  }

  /** The part of `all` that an outbox holding `sent` posts accepts. */
  function Accepted(all: seq<Post>, sent: nat, capacity: Option<nat>): (r: seq<Post>)
    ensures r <= all
    ensures |r| == |all| <==> all == [] || capacity.None? || sent + |all| <= capacity.value
    ensures capacity.Some? && capacity.value >= sent ==> |r| == Min(|all|, capacity.value - sent)
  {
    if capacity.None? || sent + |all| <= capacity.value then all
    else if sent >= capacity.value then []
    else all[..capacity.value - sent]
  }

  /** An outbox that filled up after `i` posts of `all` accepted exactly
      those. */
  lemma StopsAt(all: seq<Post>, start: nat, capacity: Option<nat>, i: nat)
    requires i <= |all|
    requires i == 0 || capacity.None? || start + i <= capacity.value
    requires capacity.Some? && start + i >= capacity.value
    ensures Accepted(all, start, capacity) == all[..i]
  {
    if start + |all| <= capacity.value {
      assert i == |all|;
    }
  }

  function Min(a: nat, b: nat): nat {
    if a <= b then a else b
  }

  /** Posts `all` in order, stopping at the first one the platform rejects. */
  method DeliverAll(out: Outbox, all: seq<Post>) returns (ok: bool)
    modifies out
    ensures out.posts == old(out.posts) + Accepted(all, |old(out.posts)|, out.capacity)
    ensures ok <==> |Accepted(all, |old(out.posts)|, out.capacity)| == |all|
  {
    ghost var start := |out.posts|;
    for i := 0 to |all|
      invariant out.posts == old(out.posts) + all[..i]
      invariant i == 0 || out.capacity.None? || start + i <= out.capacity.value
    {
      var sent := out.Deliver(all[i]);
      if !sent {
        StopsAt(all, start, out.capacity, i);
        return false;
      }
      assert all[..i + 1] == all[..i] + [all[i]];
    }
    assert all[..|all|] == all;
    ok := true;
  }

  function First(chunks: seq<string>): Option<string> {
    if chunks == [] then None else Some(chunks[0])
  }

  function Sends(contents: seq<string>): (r: seq<Post>)
    ensures |r| == |contents|
    ensures forall i | 0 <= i < |r| :: r[i] == Send(contents[i])
  {
    seq(|contents|, i requires 0 <= i < |contents| => Send(contents[i]))
  }

  /** A guide thread: the first chunk opens it, the rest follow in order. */
  function ThreadPosts(name: string, chunks: seq<string>): seq<Post> {
    [OpenThread(name, First(chunks))] + (if chunks == [] then [] else Sends(chunks[1..]))
  }

  /** The texts a reader of the posts sees, message by message. */
  function Messages(posts: seq<Post>): seq<string>
    decreases |posts|
  {
    if posts == [] then []
    else
      var last := posts[|posts| - 1];
      Messages(posts[..|posts| - 1])
      + match last
        case OpenThread(_, Some(c)) => [c]
        case Send(c) => [c]
        case _ => []
  }

  lemma {:induction false} MessagesAppend(a: seq<Post>, b: seq<Post>)
    ensures Messages(a + b) == Messages(a) + Messages(b)
    decreases |b|
  {
    if b == [] {
      assert a + b == a;
    } else {
      assert (a + b)[..|a + b| - 1] == a + b[..|b| - 1];
      MessagesAppend(a, b[..|b| - 1]);
    }
  }

  lemma {:induction false} MessagesOfSends(contents: seq<string>)
    ensures Messages(Sends(contents)) == contents
    decreases |contents|
  {
    if contents != [] {
      var n := |contents| - 1;
      assert Sends(contents)[..n] == Sends(contents[..n]);
      MessagesOfSends(contents[..n]);
    }
  }

  /** The thread holds exactly the chunks, in order, the first one opening
      it. */
  lemma ThreadShowsChunks(name: string, chunks: seq<string>)
    ensures Messages(ThreadPosts(name, chunks)) == chunks
    ensures ThreadPosts(name, chunks)[0] == OpenThread(name, First(chunks))
  {
    var open := [OpenThread(name, First(chunks))];
    OpenShows(name, chunks);
    if chunks == [] {
      assert ThreadPosts(name, chunks) == open;
    } else {
      var rest := chunks[1..];
      assert ThreadPosts(name, chunks) == open + Sends(rest);
      MessagesAppend(open, Sends(rest));
      MessagesOfSends(rest);
      assert [chunks[0]] + rest == chunks;
    }
  }

  /** The opening post shows the first chunk, if any. */
  lemma OpenShows(name: string, chunks: seq<string>)
    ensures Messages([OpenThread(name, First(chunks))]) == if chunks == [] then [] else [chunks[0]]
  {
    var open := [OpenThread(name, First(chunks))];
    assert open[..0] == [];
  }

  /** Posting a guide thread to a forum (`postToForum` and the guide
      scripts): nothing when the forum is missing; nothing either when there
      is no chunk, because the thread's first message is then
      `chunks[0] === undefined` and the platform refuses to open a thread
      with an empty message; otherwise the thread posts in order, then the
      thread pin when `pin` is set, up to the first rejection. */
  method PostThread(out: Outbox, forumFound: bool, name: string, chunks: seq<string>, pin: bool) returns (ok: bool)
    modifies out
    ensures var all := ThreadPosts(name, chunks) + (if pin then [PinThread] else []);
      && (!forumFound || chunks == [] ==> !ok && out.posts == old(out.posts))
      && (forumFound && chunks != [] ==> out.posts == old(out.posts) + Accepted(all, |old(out.posts)|, out.capacity)
                                         && (ok <==> |Accepted(all, |old(out.posts)|, out.capacity)| == |all|))
  {
    if !forumFound || chunks == [] {
      return false;
    }
    ok := DeliverAll(out, ThreadPosts(name, chunks) + (if pin then [PinThread] else []));
  }

  /** The posts of `post-math`: every chunk, then a pin of the first message
      sent, which is at position `first` of the outbox. */
  function PinnedPosts(first: nat, chunks: seq<string>): seq<Post> {
    Sends(chunks) + (if chunks != [] then [PinMessage(first)] else [])
  }

  /** The pinned message is the first chunk sent. */
  lemma PinnedIsFirst(first: nat, chunks: seq<string>)
    requires chunks != []
    ensures var p := PinnedPosts(first, chunks);
      p[0] == Send(chunks[0]) && p[|p| - 1] == PinMessage(first)
      && Messages(p) == chunks
  {
    MessagesAppend(Sends(chunks), [PinMessage(first)]);
    MessagesOfSends(chunks);
    assert [PinMessage(first)][..0] == [];
  }

  /** `post-math`: sends every chunk, collecting the sent messages, then pins
      `messages[0]`; with no chunks, `messages[0]` is undefined and the script
      stops without a pin. */
  method PostPinned(out: Outbox, chunks: seq<string>) returns (ok: bool)
    modifies out
    ensures var all := PinnedPosts(|old(out.posts)|, chunks);
      out.posts == old(out.posts) + Accepted(all, |old(out.posts)|, out.capacity)
      && (ok <==> chunks != [] && |Accepted(all, |old(out.posts)|, out.capacity)| == |all|)
  {
    ghost var start := |out.posts|;
    ghost var all := PinnedPosts(start, chunks);
    var messages: seq<nat> := [];
    for i := 0 to |chunks|
      invariant out.posts == old(out.posts) + Sends(chunks)[..i]
      invariant i == 0 || out.capacity.None? || start + i <= out.capacity.value
      invariant |messages| == i && forall k | 0 <= k < i :: messages[k] == start + k
    {
      var sent := out.Deliver(Send(chunks[i]));
      if !sent {
        assert all[..i] == Sends(chunks)[..i];
        StopsAt(all, start, out.capacity, i);
        return false;
      }
      assert Sends(chunks)[..i + 1] == Sends(chunks)[..i] + [Send(chunks[i])];
      messages := messages + [|out.posts| - 1];
    }
    assert Sends(chunks)[..|chunks|] == Sends(chunks);
    if messages == [] {
      return false;
    }
    ok := out.Deliver(PinMessage(messages[0]));
    if !ok {
      assert all[..|chunks|] == Sends(chunks);
      StopsAt(all, start, out.capacity, |chunks|);
    }
  }

  /** One entry of the forum table of `post-all-forums`. */
  datatype ForumConfig = ForumConfig(name: string, content: string, threadTitle: string)

  /** `post-all-forums`: each configured forum gets its guide thread; every
      forum is counted once, as a success or a failure. */
  method PostForums(out: Outbox, forums: set<string>, configs: seq<ForumConfig>) returns (successful: nat, failed: nat)
    modifies out
    ensures successful + failed == |configs|
    ensures failed >= Missing(configs, forums)
  {
    successful, failed := 0, 0;
    for i := 0 to |configs|
      invariant successful + failed == i
      invariant failed >= Missing(configs[..i], forums)
    {
      assert configs[..i + 1][..i] == configs[..i];
      var config := configs[i];
      assert Missing(configs[..i + 1], forums) == Missing(configs[..i], forums) + (if config.name in forums then 0 else 1);
      var chunks := SplitContentVisible(config.content, 1900, Truncate);
      var success := PostThread(out, config.name in forums, config.threadTitle, chunks, false);
      if success {
        successful := successful + 1;
      } else {
        failed := failed + 1;
      }
    }
    assert configs[..|configs|] == configs;
  }

  /** The number of configured forums the guild does not have. */
  function Missing(configs: seq<ForumConfig>, forums: set<string>): nat
    decreases |configs|
  {
    if configs == [] then 0
    else Missing(configs[..|configs| - 1], forums) + (if configs[|configs| - 1].name in forums then 0 else 1)
  }
}
