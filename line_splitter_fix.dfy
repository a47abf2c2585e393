/** The line splitters push `currentChunk.trim()` whenever `currentChunk` is
    non-empty, so a run of blank lines at a chunk boundary (and, in the
    word-wrapping variant, a long line whose first word is already too long)
    yields an empty chunk, which the scripts then post as a message; only the
    final push is guarded by `trim()`. The corrected splitter guards every
    push the same way. */
module LineSplitterFix {
  import opened Text
  import opened LineSplitter
  import opened LineSplitterFacts
  import opened Wrappers

  /** The chunks the splitters produce as written can be empty. */
  lemma EmptyChunkAsWritten(mode: LongLines)
    ensures Chunks("\n", 1, mode) == [""]
  {
    NewlineSplit();
    TwoEmptyLines(mode);
    NewlineBlank();
  }

  lemma NewlineSplit()
    ensures Split("\n", "\n") == ["", ""]
  {
    assert "\n"[..1] == "\n" && "\n"[1..] == "";
    assert IndexOf("\n", "\n") == Some(0);
    assert IndexOf("", "\n") == None;
    assert Split("", "\n") == [""];
  }

  /** Two empty lines overflow a one-character chunk with a blank one. */
  lemma TwoEmptyLines(mode: LongLines)
    ensures PackLines(["", ""], 1, mode) == Packing([""], "\n")
  {
    var p1 := Packing([], "\n");
    assert ["", ""][..1] == [""];
    assert PackLines([""], 1, mode) == PackLine(Packing([], ""), "", 1, mode) == p1;
    NewlineBlank();
    assert Flush(p1) == [""];
    assert PackLine(p1, "", 1, mode) == Packing(Flush(p1), "\n");
  }

  lemma NewlineBlank()
    ensures Trim("\n") == ""
  {
    assert TrimEnd("\n") == TrimEnd("\n"[..0]) == "";
  }

  /** The non-blank chunks, in order; a chunk is blank when it is all
      whitespace, which `BlankIffAllSpace` shows is `IsBlank`. */
  function Visible(chunks: seq<string>): (r: seq<string>)
    ensures |r| <= |chunks|
    decreases |chunks|
  {
    if chunks == [] then []
    else
      var init := Visible(chunks[..|chunks| - 1]);
      if AllSpace(chunks[|chunks| - 1]) then init else init + [chunks[|chunks| - 1]]
  }

  /** Dropping blank chunks leaves no blank chunk, and only chunks that were there. */
  lemma {:induction false} VisibleClean(chunks: seq<string>)
    ensures forall i | 0 <= i < |Visible(chunks)| :: !IsBlank(Visible(chunks)[i])
    ensures forall i | 0 <= i < |Visible(chunks)| :: Visible(chunks)[i] in chunks
    decreases |chunks|
  {
    if chunks != [] {
      var init := chunks[..|chunks| - 1];
      VisibleClean(init);
      forall x | x in init ensures x in chunks {
        var k :| 0 <= k < |init| && init[k] == x;
        assert chunks[k] == x;
      }
      BlankIffAllSpace(chunks[|chunks| - 1]);
    }
  }

  lemma {:induction false} VisibleAppend(a: seq<string>, b: seq<string>)
    ensures Visible(a + b) == Visible(a) + Visible(b)
    decreases |b|
  {
    if b == [] {
      assert a + b == a;
    } else {
      assert (a + b)[..|a + b| - 1] == a + b[..|b| - 1];
      VisibleAppend(a, b[..|b| - 1]);
    }
  }

  /** Dropping blank chunks drops no text. */
  lemma {:induction false} VisibleKeepsText(chunks: seq<string>)
    ensures Squeeze(Concat(Visible(chunks))) == Squeeze(Concat(chunks))
    decreases |chunks|
  {
    if chunks != [] {
      var init, last := chunks[..|chunks| - 1], chunks[|chunks| - 1];
      VisibleKeepsText(init);
      SqueezeConcatLast(chunks);
      SqueezeAllSpace(last);
      if AllSpace(last) {
        assert Visible(chunks) == Visible(init);
        AppendEmpty(Squeeze(Concat(init)));
      } else {
        var v := Visible(init) + [last];
        assert Visible(chunks) == v;
        SqueezeConcatLast(v);
        assert v[..|v| - 1] == Visible(init);
      }
    }
  }

  /** Trimming neither makes nor unmakes a blank text. */
  lemma BlankTrim(s: string)
    ensures IsBlank(Trim(s)) <==> IsBlank(s)
  {
    SqueezeTrim(s);
    BlankIffSqueezeEmpty(s);
    BlankIffSqueezeEmpty(Trim(s));
  }

  /** Pushing a trimmed text adds it exactly when it is not blank. */
  lemma VisiblePush(chunks: seq<string>, s: string)
    ensures Visible(chunks + [Trim(s)]) == if IsBlank(s) then Visible(chunks) else Visible(chunks) + [Trim(s)]
  {
    BlankTrim(s);
    BlankIffAllSpace(Trim(s));
    assert (chunks + [Trim(s)])[..|chunks|] == chunks;
  }

  /** A text with a non-whitespace character is not blank. */
  lemma NotBlank(s: string, i: nat)
    requires i < |s| && !IsSpace(s[i])
    ensures !IsBlank(s)
  {
    BlankIffSqueezeEmpty(s);
    SqueezeAllSpace(s);
  }

  /** A chunk holding a non-blank piece is not dropped. */
  lemma VisibleInside(t: string, chunks: seq<string>)
    requires !IsBlank(t) && Inside(t, chunks)
    ensures Inside(t, Visible(chunks))
  {
    var j :| 0 <= j < |chunks| && Contains(chunks[j], Trim(t));
    ContainsVisible(chunks[j], Trim(t));
    var i := VisibleKeeps(chunks, j);
    assert Contains(Visible(chunks)[i], Trim(t));
  }

  lemma VisibleSnoc(chunks: seq<string>)
    requires chunks != []
    ensures Visible(chunks) == Visible(chunks[..|chunks| - 1]) + Visible([chunks[|chunks| - 1]])
  {
    var last := chunks[|chunks| - 1];
    assert [last][..0] == [];
  }

  /** Each non-blank chunk is kept; returns where. */
  lemma {:induction false} VisibleKeeps(chunks: seq<string>, j: nat) returns (i: nat)
    requires j < |chunks| && !IsBlank(chunks[j])
    ensures i < |Visible(chunks)| && Visible(chunks)[i] == chunks[j]
    decreases |chunks|
  {
    var n := |chunks| - 1;
    var init := chunks[..n];
    var v := Visible(init);
    BlankIffAllSpace(chunks[j]);
    if j < n {
      assert init[j] == chunks[j];
      i := VisibleKeeps(init, j);
      VisibleSnoc(chunks);
      assert (v + Visible([chunks[n]]))[i] == v[i];
    } else {
      i := |v|;
      VisibleSnoc(chunks);
      assert Visible(chunks) == v + [chunks[n]];
    }
  }

  /** A text that contains a non-blank text is not blank. */
  lemma ContainsVisible(s: string, pat: string)
    requires pat != [] && !IsSpace(pat[0]) && Contains(s, pat)
    ensures !IsBlank(s)
  {
    var k: nat :| k <= |s| && OccursAt(s, pat, k);
    assert s[k] == pat[0];
    NotBlank(s, k);
  }

  lemma InsideLast(t: string, a: seq<string>, last: string)
    requires Contains(last, Trim(t))
    ensures Inside(t, a + [last])
  {
    assert (a + [last])[|a|] == last;
  }

  /** The inner word loop with a guarded push. */
  method WrapWordsVisible(words: seq<string>, maxLength: nat) returns (pushed: seq<string>, temp: string)
    ensures pushed == Visible(PackWords(words, maxLength).chunks)
    ensures temp == PackWords(words, maxLength).current
  {
    pushed, temp := [], "";
    ghost var raw: seq<string> := [];
    for j := 0 to |words|
      invariant Packing(raw, temp) == PackWords(words[..j], maxLength)
      invariant pushed == Visible(raw)
    {
      assert words[..j + 1][..j] == words[..j];
      ghost var before := Packing(raw, temp);
      var word := words[j];
      if |temp + word + " "| > maxLength {
        VisiblePush(raw, temp);
        if !IsBlank(temp) {
          pushed := pushed + [Trim(temp)];
        }
        raw := raw + [Trim(temp)];
        temp := "";
        assert temp + word + " " == word + " ";
      }
      temp := temp + word + " ";
      assert Packing(raw, temp) == PackWord(before, word, maxLength);
    }
    assert words[..|words|] == words;
  }

  /** `splitContent` with every push guarded by `trim()`. */
  method SplitContentVisible(content: string, maxLength: nat, mode: LongLines) returns (chunks: seq<string>)
    ensures chunks == Visible(Chunks(content, maxLength, mode))
  {
    var lines := Split(content, "\n");
    chunks := [];
    ghost var raw: seq<string> := [];
    var current := "";
    for i := 0 to |lines|
      invariant Packing(raw, current) == PackLines(lines[..i], maxLength, mode)
      invariant chunks == Visible(raw)
    {
      assert lines[..i + 1][..i] == lines[..i];
      ghost var before := Packing(raw, current);
      var line := lines[i];
      if |current + line + "\n"| > maxLength {
        if current != "" {
          if !IsBlank(current) {
            chunks := chunks + [Trim(current)];
          }
          VisiblePush(raw, current);
          raw := raw + [Trim(current)];
          current := "";
        }
        assert raw == Flush(before);
        if |line| > maxLength && mode == Truncate {
          current := Truncated(line, maxLength);
        } else if |line| > maxLength && mode == WordWrap {
          var pushed, temp := WrapWordsVisible(Split(line, " "), maxLength);
          VisibleAppend(raw, PackWords(Split(line, " "), maxLength).chunks);
          chunks := chunks + pushed;
          raw := raw + PackWords(Split(line, " "), maxLength).chunks;
          if temp != "" {
            current := temp;
          }
        } else {
          current := line + "\n";
        }
      } else {
        current := current + line + "\n";
      }
      assert Packing(raw, current) == PackLine(before, line, maxLength, mode);
    }
    assert lines[..|lines|] == lines;
    if !IsBlank(current) {
      VisiblePush(raw, current);
      chunks := chunks + [Trim(current)];
      raw := raw + [Trim(current)];
    }
  }

  /** The corrected splitter keeps all the text: everything but whitespace,
      in order (with truncation: of the lines as truncated). */
  lemma FixedKeepsText(content: string, maxLength: nat, mode: LongLines)
    ensures var r := Visible(Chunks(content, maxLength, mode));
      Squeeze(Concat(r)) == Squeeze(Concat(ShownLines(Split(content, "\n"), maxLength, mode)))
      && (mode != Truncate ==> Squeeze(Concat(r)) == Squeeze(content))
  {
    VisibleKeepsText(Chunks(content, maxLength, mode));
    ChunksKeepText(content, maxLength, mode);
    if mode != Truncate {
      ChunksKeepContent(content, maxLength, mode);
    }
  }

  /** The corrected splitter keeps the length bounds of each variant. */
  lemma FixedBounds(content: string, maxLength: nat, mode: LongLines)
    ensures var r := Visible(Chunks(content, maxLength, mode));
      (mode == Truncate && maxLength >= 3 ==> AllFit(r, maxLength))
      && (mode == WordWrap ==> WrapChunks(r, maxLength))
      && (mode == Keep ==> KeepChunks(r, Split(content, "\n"), maxLength))
  {
    var chunks := Chunks(content, maxLength, mode);
    var r := Visible(chunks);
    if mode == Truncate && maxLength >= 3 {
      TruncatedChunksFit(content, maxLength);
    } else if mode == WordWrap {
      WrappedChunksFit(content, maxLength);
    } else if mode == Keep {
      KeptChunksAreLines(content, maxLength);
    }
    VisibleClean(chunks);
    forall i | 0 <= i < |r| ensures exists k | 0 <= k < |chunks| :: chunks[k] == r[i] {
      assert r[i] in chunks;
    }
  }

  /** The corrected splitter still keeps every piece it does not cut whole
      within one chunk. */
  lemma FixedPiecesStayWhole(content: string, maxLength: nat, mode: LongLines)
    ensures var lines := Split(content, "\n");
      forall k, i | 0 <= k < |lines| && 0 <= i < |Pieces(lines[k], maxLength, mode)| ::
        !IsBlank(Pieces(lines[k], maxLength, mode)[i]) ==>
          Inside(Pieces(lines[k], maxLength, mode)[i], Visible(Chunks(content, maxLength, mode)))
  {
    var lines := Split(content, "\n");
    forall k, i | 0 <= k < |lines| && 0 <= i < |Pieces(lines[k], maxLength, mode)| && !IsBlank(Pieces(lines[k], maxLength, mode)[i])
      ensures Inside(Pieces(lines[k], maxLength, mode)[i], Visible(Chunks(content, maxLength, mode)))
    {
      PieceStaysWhole(content, maxLength, mode, k, i);
      VisibleInside(Pieces(lines[k], maxLength, mode)[i], Chunks(content, maxLength, mode));
    }
  }
}
