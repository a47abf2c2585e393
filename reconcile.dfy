/** `updateForumThread`: replaces the messages of a forum's "START HERE"
    thread with the chunks of its content file, editing the messages that
    exist, adding what is missing and deleting the excess. Indices name the
    fetched messages, oldest first. */
module Reconcile {
  import opened Wrappers
  import opened Text
  import opened LineSplitter
  import opened LineSplitterFix

  datatype Op =
    | Edit(index: nat, content: string)   // existingMessages[index].edit(content)
    | Add(content: string)                // targetThread.send(content)
    | Remove(index: nat)                  // existingMessages[index].delete()

  function Min(a: nat, b: nat): nat {
    if a <= b then a else b
  }

  /** `Math.max(0, a - b)` */
  function Excess(a: nat, b: nat): nat {
    if a > b then a - b else 0
  }

  function Edits(chunks: seq<string>, n: nat): (r: seq<Op>)
    requires n <= |chunks|
    ensures |r| == n && forall i | 0 <= i < n :: r[i] == Edit(i, chunks[i])
  {
    seq(n, i requires 0 <= i < n => Edit(i, chunks[i]))
  }

  function Adds(chunks: seq<string>, from: nat): (r: seq<Op>)
    ensures |r| == Excess(|chunks|, from)
    ensures forall i | 0 <= i < |r| :: r[i] == Add(chunks[from + i])
  {
    seq(Excess(|chunks|, from), i requires 0 <= i < Excess(|chunks|, from) => Add(chunks[from + i]))
  }

  function Removes(from: nat, end: nat): (r: seq<Op>)
    ensures |r| == Excess(end, from)
    ensures forall i | 0 <= i < |r| :: r[i] == Remove(from + i)
  {
    seq(Excess(end, from), i requires 0 <= i < Excess(end, from) => Remove(from + i))
  }

  /** The operations of replace mode, for `existing` fetched messages. */
  function Plan(existing: nat, chunks: seq<string>): seq<Op> {
    Edits(chunks, Min(existing, |chunks|)) + Adds(chunks, existing) + Removes(|chunks|, existing)
  }

  /** The three loops of replace mode. */
  method PlanReplace(existing: nat, chunks: seq<string>) returns (ops: seq<Op>)
    ensures ops == Plan(existing, chunks)
  {
    ops := [];
    var n := Min(existing, |chunks|);
    for i := 0 to n
      invariant ops == Edits(chunks, i)
    {
      ops := ops + [Edit(i, chunks[i])];
    }
    if |chunks| > existing {
      for i := existing to |chunks|
        invariant ops == Edits(chunks, n) + Adds(chunks[..i], existing)
      {
        assert Adds(chunks[..i + 1], existing) == Adds(chunks[..i], existing) + [Add(chunks[i])];
        ops := ops + [Add(chunks[i])];
      }
      assert chunks[..|chunks|] == chunks;
    }
    if existing > |chunks| {
      for i := |chunks| to existing
        invariant ops == Edits(chunks, n) + Adds(chunks, existing) + Removes(|chunks|, i)
      {
        assert Removes(|chunks|, i + 1) == Removes(|chunks|, i) + [Remove(i)];
        ops := ops + [Remove(i)];
      }
    }
  }

  function CountEdits(ops: seq<Op>): nat
    decreases |ops|
  {
    if ops == [] then 0 else CountEdits(ops[..|ops| - 1]) + (if ops[|ops| - 1].Edit? then 1 else 0)
  }

  function CountAdds(ops: seq<Op>): nat
    decreases |ops|
  {
    if ops == [] then 0 else CountAdds(ops[..|ops| - 1]) + (if ops[|ops| - 1].Add? then 1 else 0)
  }

  function CountRemoves(ops: seq<Op>): nat
    decreases |ops|
  {
    if ops == [] then 0 else CountRemoves(ops[..|ops| - 1]) + (if ops[|ops| - 1].Remove? then 1 else 0)
  }

  /** Counting each kind of operation distributes over concatenation. */
  lemma {:induction false} CountsAppend(a: seq<Op>, b: seq<Op>)
    ensures CountEdits(a + b) == CountEdits(a) + CountEdits(b)
    ensures CountAdds(a + b) == CountAdds(a) + CountAdds(b)
    ensures CountRemoves(a + b) == CountRemoves(a) + CountRemoves(b)
    decreases |b|
  {
    if b == [] {
      assert a + b == a;
    } else {
      assert (a + b)[..|a + b| - 1] == a + b[..|b| - 1];
      CountsAppend(a, b[..|b| - 1]);
    }
  }

  /** A run of edits counts as edits only. */
  lemma {:induction false} CountsOfEdits(ops: seq<Op>)
    requires forall i | 0 <= i < |ops| :: ops[i].Edit?
    ensures CountEdits(ops) == |ops| && CountAdds(ops) == 0 && CountRemoves(ops) == 0
    decreases |ops|
  {
    if ops != [] {
      CountsOfEdits(ops[..|ops| - 1]);
    }
  }

  /** A run of additions counts as additions only. */
  lemma {:induction false} CountsOfAdds(ops: seq<Op>)
    requires forall i | 0 <= i < |ops| :: ops[i].Add?
    ensures CountEdits(ops) == 0 && CountAdds(ops) == |ops| && CountRemoves(ops) == 0
    decreases |ops|
  {
    if ops != [] {
      CountsOfAdds(ops[..|ops| - 1]);
    }
  }

  /** A run of removals counts as removals only. */
  lemma {:induction false} CountsOfRemoves(ops: seq<Op>)
    requires forall i | 0 <= i < |ops| :: ops[i].Remove?
    ensures CountEdits(ops) == 0 && CountAdds(ops) == 0 && CountRemoves(ops) == |ops|
    decreases |ops|
  {
    if ops != [] {
      CountsOfRemoves(ops[..|ops| - 1]);
    }
  }

  /** The counts logged by `updateForumThread`: `min` messages updated,
      `max(0, chunks - existing)` added and `max(0, existing - chunks)`
      removed; so every chunk is either an update or an addition, and every
      existing message either an update or a removal. */
  lemma PlanCounts(existing: nat, chunks: seq<string>)
    ensures var ops := Plan(existing, chunks);
      CountEdits(ops) == Min(existing, |chunks|)
      && CountAdds(ops) == Excess(|chunks|, existing)
      && CountRemoves(ops) == Excess(existing, |chunks|)
      && CountEdits(ops) + CountAdds(ops) == |chunks|
      && CountEdits(ops) + CountRemoves(ops) == existing
  {
    var e, a, r := Edits(chunks, Min(existing, |chunks|)), Adds(chunks, existing), Removes(|chunks|, existing);
    CountsOfEdits(e);
    CountsOfAdds(a);
    CountsOfRemoves(r);
    PlanCountsJoin(e, a, r, Plan(existing, chunks));
  }

  /** The counts of a plan are the sums of the counts of its three parts. */
  lemma PlanCountsJoin(e: seq<Op>, a: seq<Op>, r: seq<Op>, ops: seq<Op>)
    requires ops == e + a + r
    ensures CountEdits(ops) == CountEdits(e) + CountEdits(a) + CountEdits(r)
    ensures CountAdds(ops) == CountAdds(e) + CountAdds(a) + CountAdds(r)
    ensures CountRemoves(ops) == CountRemoves(e) + CountRemoves(a) + CountRemoves(r)
  {
    CountsAppend(e, a);
    CountsAppend(e + a, r);
  }

  /** A thread as the plan sees it: the fetched messages (a deleted one is
      `None`) followed by the added ones. */
  function Step(thread: seq<Option<string>>, op: Op): seq<Option<string>> {
    match op
    case Edit(i, c) => if i < |thread| then thread[i := Some(c)] else thread
    case Add(c) => thread + [Some(c)]
    case Remove(i) => if i < |thread| then thread[i := None] else thread
  }

  function Run(thread: seq<Option<string>>, ops: seq<Op>): seq<Option<string>>
    decreases |ops|
  {
    if ops == [] then thread else Run(Step(thread, ops[0]), ops[1..])
  }

  /** The messages a reader sees, in order. */
  function Present(thread: seq<Option<string>>): seq<string>
    decreases |thread|
  {
    if thread == [] then []
    else Present(thread[..|thread| - 1]) + (match thread[|thread| - 1] case Some(c) => [c] case None => [])
  }

  function AsThread(messages: seq<string>): (r: seq<Option<string>>)
    ensures |r| == |messages| && forall i | 0 <= i < |r| :: r[i] == Some(messages[i])
  {
    seq(|messages|, i requires 0 <= i < |messages| => Some(messages[i]))
  }

  lemma {:induction false} RunAppend(thread: seq<Option<string>>, a: seq<Op>, b: seq<Op>)
    ensures Run(thread, a + b) == Run(Run(thread, a), b)
    decreases |a|
  {
    if a == [] {
      assert a + b == b;
    } else {
      assert (a + b)[1..] == a[1..] + b;
      RunAppend(Step(thread, a[0]), a[1..], b);
    }
  }

  /** Editing the first `n` messages puts the first `n` chunks there. */
  lemma {:induction false} RunEdits(thread: seq<Option<string>>, chunks: seq<string>, n: nat, from: nat)
    requires from <= n <= |chunks| && n <= |thread|
    requires forall i | 0 <= i < from :: thread[i] == Some(chunks[i])
    ensures var t := Run(thread, Edits(chunks, n)[from..]);
      |t| == |thread| && (forall i | 0 <= i < n :: t[i] == Some(chunks[i]))
      && (forall i | n <= i < |t| :: t[i] == thread[i])
    decreases n - from
  {
    var ops := Edits(chunks, n)[from..];
    if from < n {
      assert ops[0] == Edit(from, chunks[from]);
      assert ops[1..] == Edits(chunks, n)[from + 1..];
      RunEdits(thread[from := Some(chunks[from])], chunks, n, from + 1);
    }
  }

  lemma {:induction false} RunAdds(thread: seq<Option<string>>, chunks: seq<string>, from: nat, k: nat)
    requires from + k <= |chunks|
    ensures Run(thread, Adds(chunks, from)[k..]) == thread + AsThread(chunks[from + k..])
    decreases |chunks| - from - k
  {
    var ops := Adds(chunks, from)[k..];
    if from + k < |chunks| {
      assert ops[0] == Add(chunks[from + k]);
      assert ops[1..] == Adds(chunks, from)[k + 1..];
      RunAdds(thread + [Some(chunks[from + k])], chunks, from, k + 1);
      assert [Some(chunks[from + k])] + AsThread(chunks[from + k + 1..]) == AsThread(chunks[from + k..]);
    } else {
      assert AsThread(chunks[from + k..]) == [];
    }
  }

  lemma {:induction false} RunRemoves(thread: seq<Option<string>>, from: nat, end: nat, k: nat)
    requires from + k <= end <= |thread|
    ensures var t := Run(thread, Removes(from, end)[k..]);
      && |t| == |thread|
      && (forall i | from + k <= i < end :: t[i] == None)
      && (forall i | 0 <= i < |t| && (i < from + k || end <= i) :: t[i] == thread[i])
    decreases end - (from + k)
  {
    var ops := Removes(from, end)[k..];
    if from + k < end {
      assert ops[0] == Remove(from + k);
      assert ops[1..] == Removes(from, end)[k + 1..];
      RunRemoves(thread[from + k := None], from, end, k + 1);
    }
  }

  lemma {:induction false} PresentAppend(a: seq<Option<string>>, b: seq<Option<string>>)
    ensures Present(a + b) == Present(a) + Present(b)
    decreases |b|
  {
    if b == [] {
      assert a + b == a;
    } else {
      assert (a + b)[..|a + b| - 1] == a + b[..|b| - 1];
      PresentAppend(a, b[..|b| - 1]);
    }
  }

  lemma {:induction false} PresentAll(t: seq<Option<string>>, messages: seq<string>)
    requires t == AsThread(messages)
    ensures Present(t) == messages
    decreases |t|
  {
    if t != [] {
      var n := |t| - 1;
      assert t[..n] == AsThread(messages[..n]);
      PresentAll(t[..n], messages[..n]);
      assert messages[..n] + [messages[n]] == messages;
    }
  }

  lemma {:induction false} PresentNone(t: seq<Option<string>>)
    requires forall i | 0 <= i < |t| :: t[i] == None
    ensures Present(t) == []
    decreases |t|
  {
    if t != [] {
      PresentNone(t[..|t| - 1]);
    }
  }

  /** After replace mode the thread shows exactly the chunks, in order: the
      plan is correct for every number of existing messages. */
  lemma PlanReplaces(existing: seq<string>, chunks: seq<string>)
    ensures Present(Run(AsThread(existing), Plan(|existing|, chunks))) == chunks
  {
    var e, c := |existing|, |chunks|;
    var start := AsThread(existing);
    var edits, adds, removes := Edits(chunks, Min(e, c)), Adds(chunks, e), Removes(c, e);
    RunAppend(start, edits + adds, removes);
    RunAppend(start, edits, adds);
    if e <= c {
      PlanGrows(existing, chunks);
    } else {
      PlanShrinks(existing, chunks);
    }
  }

  lemma PlanGrows(existing: seq<string>, chunks: seq<string>)
    requires |existing| <= |chunks|
    ensures var e := |existing|;
      Present(Run(Run(Run(AsThread(existing), Edits(chunks, e)), Adds(chunks, e)), Removes(|chunks|, e))) == chunks
  {
    var e := |existing|;
    var edits, adds := Edits(chunks, e), Adds(chunks, e);
    assert edits[0..] == edits && adds[0..] == adds;
    RunEdits(AsThread(existing), chunks, e, 0);
    var t1 := Run(AsThread(existing), edits);
    EditedPrefix(t1, chunks, e);
    RunAdds(t1, chunks, e, 0);
    var t2 := Run(t1, adds);
    assert Removes(|chunks|, e) == [];
    assert Run(t2, []) == t2;
    ShowsChunks(t1, t2, chunks, e);
  }

  /** A thread whose `e` messages are the first `e` chunks. */
  lemma EditedPrefix(t: seq<Option<string>>, chunks: seq<string>, e: nat)
    requires e <= |chunks| && |t| == e && forall i | 0 <= i < e :: t[i] == Some(chunks[i])
    ensures t == AsThread(chunks[..e])
  {
  }

  /** The first `e` chunks followed by the rest show all the chunks. */
  lemma ShowsChunks(t1: seq<Option<string>>, t2: seq<Option<string>>, chunks: seq<string>, e: nat)
    requires e <= |chunks| && t1 == AsThread(chunks[..e]) && t2 == t1 + AsThread(chunks[e..])
    ensures Present(t2) == chunks
  {
    PresentAppend(t1, AsThread(chunks[e..]));
    PresentAll(t1, chunks[..e]);
    PresentAll(AsThread(chunks[e..]), chunks[e..]);
    assert chunks[..e] + chunks[e..] == chunks;
  }

  lemma PlanShrinks(existing: seq<string>, chunks: seq<string>)
    requires |existing| > |chunks|
    ensures var e, c := |existing|, |chunks|;
      Present(Run(Run(Run(AsThread(existing), Edits(chunks, c)), Adds(chunks, e)), Removes(c, e))) == chunks
  {
    var e, c := |existing|, |chunks|;
    var edits, removes := Edits(chunks, c), Removes(c, e);
    assert edits[0..] == edits && removes[0..] == removes;
    RunEdits(AsThread(existing), chunks, c, 0);
    var t1 := Run(AsThread(existing), edits);
    assert Adds(chunks, e) == [];
    assert Run(t1, []) == t1;
    RunRemoves(t1, c, e, 0);
    ShowsKept(t1, Run(t1, removes), chunks);
  }

  /** A thread whose first messages are the chunks and whose others are
      deleted shows the chunks. */
  lemma ShowsKept(t1: seq<Option<string>>, t3: seq<Option<string>>, chunks: seq<string>)
    requires |chunks| <= |t1| == |t3|
    requires forall i | 0 <= i < |chunks| :: t1[i] == Some(chunks[i])
    requires forall i | |chunks| <= i < |t3| :: t3[i] == None
    requires forall i | 0 <= i < |t3| && i < |chunks| :: t3[i] == t1[i]
    ensures Present(t3) == chunks
  {
    var c := |chunks|;
    assert t3 == t3[..c] + t3[c..];
    assert t3[..c] == AsThread(chunks);
    PresentAppend(t3[..c], t3[c..]);
    PresentAll(t3[..c], chunks);
    PresentNone(t3[c..]);
  }

  /** `messages.fetch({ limit: 100 })`, reversed: the latest 100 messages of
      the thread, oldest first. */
  function Fetched(history: seq<string>): (r: seq<string>)
    ensures |r| <= 100
    ensures |history| <= 100 ==> r == history
  {
    if |history| <= 100 then history else history[|history| - 100..]
  }

  /** How the script was invoked. */
  datatype Mode = Replace | AppendNote(message: Option<string>)

  /** The counts written to the update log. */
  datatype Details = Details(updated: nat, added: nat, removed: nat)

  /** What the thread learns in append mode: one message, with the date and
      the given text or the default one. */
  function NoteText(date: string, message: Option<string>): string {
    "\n\n---\n\n**\U{1F504} Content Updated: " + date + "**\n\n"
    + (match message case Some(m) => if m != "" then m else DefaultNote case None => DefaultNote)
  }

  const DefaultNote: string := "Latest resources, papers, and tools have been added."

  /** What a call sends to the thread. */
  datatype Action = Apply(ops: seq<Op>) | Announce(note: string)

  /** `updateForumThread`: every missing piece (a forum without a file in the
      table, a missing file, forum channel or "START HERE" thread) makes it
      return false with nothing sent, and so does a rejected fetch
      (`fetched` is false when `threads.fetchActive` or `messages.fetch`
      rejects); append mode sends one note and succeeds exactly when that
      send is accepted (`noteSent`); a dry run sends nothing; otherwise the
      plan is run, each rejected edit, send or delete being caught on its
      own, and the outcome is whether the update log is written
      (`logWritten`). `action` is what is attempted. */
  method UpdateForumThread(inTable: bool, fileExists: bool, forumFound: bool, threadFound: bool, fetched: bool,
                           content: string, history: seq<string>, mode: Mode, dryRun: bool, date: string,
                           noteSent: bool, logWritten: bool)
    returns (ok: bool, action: Option<Action>, details: Option<Details>)
    ensures !(inTable && fileExists && forumFound && threadFound && fetched) ==> !ok && action == None && details == None
    ensures inTable && fileExists && forumFound && threadFound && fetched && mode.AppendNote? ==>
      ok == noteSent && action == Some(Announce(NoteText(date, mode.message))) && details == None
    ensures inTable && fileExists && forumFound && threadFound && fetched && mode == Replace && dryRun ==>
      ok && action == None && details == None
    ensures inTable && fileExists && forumFound && threadFound && fetched && mode == Replace && !dryRun ==>
      var chunks, existing := Visible(Chunks(content, 1900, Truncate)), |Fetched(history)|;
      ok == logWritten
      && action == Some(Apply(Plan(existing, chunks)))
      && details == Some(Details(Min(existing, |chunks|), Excess(|chunks|, existing), Excess(existing, |chunks|)))
  {
    if !inTable || !fileExists || !forumFound || !fetched || !threadFound {
      return false, None, None;
    }
    var chunks := SplitContentVisible(content, 1900, Truncate);
    var existing := Fetched(history);
    if mode.AppendNote? {
      return noteSent, Some(Announce(NoteText(date, mode.message))), None;
    }
    if dryRun {
      return true, None, None;
    }
    var ops := PlanReplace(|existing|, chunks);
    var e, c := |existing|, |chunks|;
    details := Some(Details(Min(e, c), Excess(c, e), Excess(e, c)));
    return logWritten, Some(Apply(ops)), details;
  }
}
