/** The paragraph-based `splitContent(content, maxLength)` of the update
    scripts: content that fits is one chunk; otherwise the paragraphs of
    `content.split("\n\n")` are packed greedily, joined by "\n\n", into
    trimmed chunks. */
module ParagraphSplitter {
  import opened Text
  import opened LineSplitter
  import opened LineSplitterFacts
  import opened LineSplitterFix
  import opened Wrappers

  const Gap: string := "\n\n"

  /** One iteration of the loop over paragraphs. */
  function PackParagraph(p: Packing, paragraph: string, maxLength: nat): Packing {
    if |p.current + Gap + paragraph| > maxLength then Packing(Flush(p), paragraph)
    else Packing(p.chunks, p.current + (if p.current != [] then Gap else []) + paragraph)
  }

  function PackParagraphs(paragraphs: seq<string>, maxLength: nat): Packing
    decreases |paragraphs|
  {
    if paragraphs == [] then Packing([], "")
    else PackParagraph(PackParagraphs(paragraphs[..|paragraphs| - 1], maxLength), paragraphs[|paragraphs| - 1], maxLength)
  }

  /** The chunks `splitContent` returns; the last push is guarded by
      `if (currentChunk)`, like `Flush`. */
  function ParagraphChunks(content: string, maxLength: nat): seq<string> {
    if |content| <= maxLength then [content]
    else Flush(PackParagraphs(Split(content, Gap), maxLength))
  }

  /** `splitContent`, with the loop of the scripts. */
  method SplitParagraphs(content: string, maxLength: nat) returns (chunks: seq<string>)
    ensures chunks == ParagraphChunks(content, maxLength)
  {
    if |content| <= maxLength {
      return [content];
    }
    chunks := [];
    var paragraphs := Split(content, Gap);
    var current := "";
    for i := 0 to |paragraphs|
      invariant Packing(chunks, current) == PackParagraphs(paragraphs[..i], maxLength)
    {
      PackParagraphsSnoc(paragraphs, i, maxLength);
      ghost var before := Packing(chunks, current);
      var paragraph := paragraphs[i];
      if |current + Gap + paragraph| > maxLength {
        if current != "" {
          chunks := chunks + [Trim(current)];
        }
        current := paragraph;
      } else {
        current := current + (if current != "" then Gap else "") + paragraph;
      }
      assert Packing(chunks, current) == PackParagraph(before, paragraph, maxLength);
    }
    assert paragraphs[..|paragraphs|] == paragraphs;
    if current != "" {
      chunks := chunks + [Trim(current)];
    }
  }

  lemma PackParagraphsSnoc(paragraphs: seq<string>, i: nat, maxLength: nat)
    requires i < |paragraphs|
    ensures PackParagraphs(paragraphs[..i + 1], maxLength) == PackParagraph(PackParagraphs(paragraphs[..i], maxLength), paragraphs[i], maxLength)
  {
    assert paragraphs[..i + 1][..i] == paragraphs[..i];
  }

  lemma GapIsSpace()
    ensures AllSpace(Gap) && Squeeze(Gap) == []
  {
    SqueezeAllSpace(Gap);
  }

  lemma PackParagraphKeepsText(p: Packing, paragraph: string, maxLength: nat)
    ensures Said(PackParagraph(p, paragraph, maxLength)) == Said(p) + Squeeze(paragraph)
  {
    if |p.current + Gap + paragraph| > maxLength {
      SqueezeFlush(p);
    } else {
      GapIsSpace();
      SqueezeBetween(p.current, if p.current != [] then Gap else [], paragraph);
    }
  }

  lemma SqueezeBetween(s: string, sep: string, t: string)
    requires Squeeze(sep) == []
    ensures Squeeze(s + sep + t) == Squeeze(s) + Squeeze(t)
  {
    SqueezeAppend(s + sep, t);
    SqueezeAppend(s, sep);
  }

  lemma {:induction false} PackParagraphsKeepText(paragraphs: seq<string>, maxLength: nat)
    ensures Said(PackParagraphs(paragraphs, maxLength)) == Squeeze(Concat(paragraphs))
    decreases |paragraphs|
  {
    if paragraphs != [] {
      var n := |paragraphs| - 1;
      PackParagraphsKeepText(paragraphs[..n], maxLength);
      PackParagraphKeepsText(PackParagraphs(paragraphs[..n], maxLength), paragraphs[n], maxLength);
      SqueezeConcatLast(paragraphs);
    }
  }

  /** The chunks hold all the text of `content` but whitespace, in order. */
  lemma ParagraphChunksKeepText(content: string, maxLength: nat)
    ensures Squeeze(Concat(ParagraphChunks(content, maxLength))) == Squeeze(content)
  {
    if |content| <= maxLength {
      assert [content][..0] == [];
      assert Concat([content]) == content;
      assert ParagraphChunks(content, maxLength) == [content];
    } else {
      var paragraphs := Split(content, Gap);
      PackParagraphsKeepText(paragraphs, maxLength);
      SqueezeFlush(PackParagraphs(paragraphs, maxLength));
      GapIsSpace();
      SplitJoins(content, Gap);
      SqueezeJoin(paragraphs, Gap);
    }
  }

  /** The open chunk is within the limit, or is a single paragraph. */
  predicate CurrentFits(current: string, paragraphs: seq<string>, maxLength: nat) {
    |current| <= maxLength || exists j | 0 <= j < |paragraphs| :: current == paragraphs[j]
  }

  lemma PackParagraphFits(p: Packing, all: seq<string>, n: nat, maxLength: nat)
    requires n < |all|
    requires KeepChunks(p.chunks, all, maxLength)
    requires CurrentFits(p.current, all, maxLength)
    ensures var q := PackParagraph(p, all[n], maxLength);
      KeepChunks(q.chunks, all, maxLength) && CurrentFits(q.current, all, maxLength)
  {
    if |p.current + Gap + all[n]| > maxLength && p.current != [] {
      if |p.current| > maxLength {
        var j :| 0 <= j < |all| && p.current == all[j];
        assert IsLineOf(Trim(p.current), all);
      }
      KeepChunksSnoc(p.chunks, Trim(p.current), all, maxLength);
    }
  }

  lemma {:induction false} PackParagraphsFit(paragraphs: seq<string>, all: seq<string>, maxLength: nat)
    requires paragraphs <= all
    ensures var p := PackParagraphs(paragraphs, maxLength);
      KeepChunks(p.chunks, all, maxLength) && CurrentFits(p.current, all, maxLength)
    decreases |paragraphs|
  {
    if paragraphs != [] {
      var n := |paragraphs| - 1;
      PackParagraphsFit(paragraphs[..n], all, maxLength);
      assert all[n] == paragraphs[n];
      PackParagraphFits(PackParagraphs(paragraphs[..n], maxLength), all, n, maxLength);
    }
  }

  /** A chunk longer than `maxLength` is a single paragraph, trimmed; content
      that fits is returned as it is. */
  lemma ParagraphChunksFit(content: string, maxLength: nat)
    ensures |content| <= maxLength ==> ParagraphChunks(content, maxLength) == [content]
    ensures KeepChunks(ParagraphChunks(content, maxLength), Split(content, Gap), maxLength)
  {
    var paragraphs := Split(content, Gap);
    if |content| > maxLength {
      PackParagraphsFit(paragraphs, paragraphs, maxLength);
      var p := PackParagraphs(paragraphs, maxLength);
      if p.current != [] {
        if |p.current| > maxLength {
          var j :| 0 <= j < |paragraphs| && p.current == paragraphs[j];
          assert IsLineOf(Trim(p.current), paragraphs);
        }
        KeepChunksSnoc(p.chunks, Trim(p.current), paragraphs, maxLength);
      }
    }
  }

  /** As written, a blank last paragraph becomes an empty chunk. */
  lemma SplitExample()
    ensures Split("aaaa\n\n ", Gap) == ["aaaa", " "]
  {
    var s := "aaaa\n\n ";
    assert OccursAt(s, Gap, 4);
    forall k: nat | k < 4 ensures !OccursAt(s, Gap, k) {
      assert s[k] == 'a';
      assert s[k..k + 2][0] == s[k];
    }
    IndexOfFirst(s, Gap);
    assert IndexOf(s, Gap) == Some(4);
    assert s[..4] == "aaaa" && s[6..] == " ";
    assert IndexOf(" ", Gap) == None;
  }

  lemma TrimExamples()
    ensures Trim("aaaa") == "aaaa" && Trim(" ") == ""
  {
    TrimSurround("aaaa");
    TrimSurround(" ");
  }

  lemma EmptyParagraphChunkAsWritten()
    ensures ParagraphChunks("aaaa\n\n ", 4) == ["aaaa", ""]
  {
    SplitExample();
    TrimExamples();
    ParagraphsExample();
    assert Flush(Packing(["aaaa"], " ")) == ["aaaa", Trim(" ")];
  }

  /** Packing the two paragraphs of the example within 4 characters. */
  lemma ParagraphsExample()
    ensures PackParagraphs(["aaaa", " "], 4) == Packing(["aaaa"], " ")
  {
    TrimExamples();
    var p1 := Packing([], "aaaa");
    assert ["aaaa"][..0] == [];
    assert PackParagraphs(["aaaa"], 4) == PackParagraph(Packing([], ""), "aaaa", 4) == p1;
    assert ["aaaa", " "][..1] == ["aaaa"];
    assert Flush(p1) == ["aaaa"];
    assert PackParagraph(p1, " ", 4) == Packing(["aaaa"], " ");
  }

  /** What one paragraph adds to the non-blank chunks. */
  lemma PackParagraphVisible(p: Packing, paragraph: string, maxLength: nat)
    ensures Visible(PackParagraph(p, paragraph, maxLength).chunks)
         == if |p.current + Gap + paragraph| > maxLength && !IsBlank(p.current)
            then Visible(p.chunks) + [Trim(p.current)] else Visible(p.chunks)
  {
    if |p.current + Gap + paragraph| > maxLength && p.current != [] {
      VisiblePush(p.chunks, p.current);
    }
  }

  /** The loop over paragraphs with every push guarded by `trim()`. */
  method PackParagraphsVisible(paragraphs: seq<string>, maxLength: nat) returns (chunks: seq<string>, current: string)
    ensures chunks == Visible(PackParagraphs(paragraphs, maxLength).chunks)
    ensures current == PackParagraphs(paragraphs, maxLength).current
  {
    chunks, current := [], "";
    for i := 0 to |paragraphs|
      invariant chunks == Visible(PackParagraphs(paragraphs[..i], maxLength).chunks)
      invariant current == PackParagraphs(paragraphs[..i], maxLength).current
    {
      assert paragraphs[..i + 1][..i] == paragraphs[..i];
      var paragraph := paragraphs[i];
      PackParagraphVisible(PackParagraphs(paragraphs[..i], maxLength), paragraph, maxLength);
      if |current + Gap + paragraph| > maxLength {
        if !IsBlank(current) {
          chunks := chunks + [Trim(current)];
        }
        current := paragraph;
      } else {
        current := current + (if current != "" then Gap else "") + paragraph;
      }
    }
    assert paragraphs[..|paragraphs|] == paragraphs;
  }

  /** The corrected `splitContent`: content that fits is kept as it is,
      otherwise the packed chunks without the blank ones. */
  function Paragraphs(content: string, maxLength: nat): seq<string> {
    if |content| <= maxLength then [content] else Visible(ParagraphChunks(content, maxLength))
  }

  /** `splitContent` with every push guarded by `trim()`. */
  method SplitParagraphsVisible(content: string, maxLength: nat) returns (chunks: seq<string>)
    ensures chunks == Paragraphs(content, maxLength)
  {
    if |content| <= maxLength {
      return [content];
    }
    var paragraphs := Split(content, Gap);
    var current;
    chunks, current := PackParagraphsVisible(paragraphs, maxLength);
    ghost var p := PackParagraphs(paragraphs, maxLength);
    if current != "" {
      VisiblePush(p.chunks, current);
      if !IsBlank(current) {
        chunks := chunks + [Trim(current)];
      }
    }
  }

  /** The corrected splitter posts no blank chunk for non-blank content, keeps
      the text, and keeps the bound. */
  lemma FixedParagraphChunks(content: string, maxLength: nat)
    ensures !IsBlank(content) ==> forall i | 0 <= i < |Paragraphs(content, maxLength)| :: !IsBlank(Paragraphs(content, maxLength)[i])
    ensures Squeeze(Concat(Paragraphs(content, maxLength))) == Squeeze(content)
    ensures KeepChunks(Paragraphs(content, maxLength), Split(content, Gap), maxLength)
  {
    var chunks := ParagraphChunks(content, maxLength);
    ParagraphChunksKeepText(content, maxLength);
    ParagraphChunksFit(content, maxLength);
    if |content| > maxLength {
      FixedParagraphsLong(content, maxLength);
      VisibleClean(chunks);
    } else {
      assert Paragraphs(content, maxLength) == chunks;
    }
  }

  /** The long-content case of `FixedParagraphChunks`. */
  lemma FixedParagraphsLong(content: string, maxLength: nat)
    requires |content| > maxLength
    ensures Squeeze(Concat(Paragraphs(content, maxLength))) == Squeeze(content)
    ensures KeepChunks(Paragraphs(content, maxLength), Split(content, Gap), maxLength)
  {
    var chunks := ParagraphChunks(content, maxLength);
    ParagraphChunksKeepText(content, maxLength);
    ParagraphChunksFit(content, maxLength);
    var r := Visible(chunks);
    assert Paragraphs(content, maxLength) == r;
    VisibleKeepsText(chunks);
    VisibleClean(chunks);
    forall i | 0 <= i < |r| ensures |r[i]| <= maxLength || IsLineOf(r[i], Split(content, Gap)) {
      assert r[i] in chunks;
    }
  }
}
