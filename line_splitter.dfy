/** The line-based `splitContent` helpers of the content scripts. Three
    variants exist; they differ only in what happens to a line that does not
    fit into the open chunk and is itself longer than `maxLength`. */
module LineSplitter {
  import opened Text

  datatype LongLines =
    | Keep      // the line opens a chunk as it is
    | Truncate  // the line is cut to `maxLength - 3` characters plus "..."
    | WordWrap  // the line is packed word by word

  /** The loop state: the chunks pushed so far and `currentChunk`. */
  datatype Packing = Packing(chunks: seq<string>, current: string)

  /** `line.substring(0, maxLength - 3) + "..."`; `substring` treats a negative end as 0. */
  function Truncated(line: string, maxLength: nat): (r: string)
    requires |line| > maxLength
    ensures maxLength >= 3 ==> |r| == maxLength
    ensures 3 <= |r| <= |line| + 3
    ensures r[..|r| - 3] == line[..|r| - 3] && r[|r| - 3..] == "..."
  {
    line[..if maxLength >= 3 then maxLength - 3 else 0] + "..."
  }

  /** The inner loop over `line.split(" ")`: `tempLine` accumulates words
      followed by a space, and is pushed, trimmed, before a word that would
      make it exceed `maxLength`. `current` is `tempLine`. */
  function PackWords(words: seq<string>, maxLength: nat): Packing
    decreases |words|
  {
    if words == [] then Packing([], "")
    else PackWord(PackWords(words[..|words| - 1], maxLength), words[|words| - 1], maxLength)
  }

  /** One iteration of the loop over words. */
  function PackWord(p: Packing, word: string, maxLength: nat): Packing {
    if |p.current + word + " "| > maxLength then Packing(p.chunks + [Trim(p.current)], word + " ")
    else Packing(p.chunks, p.current + word + " ")
  }

  /** `if (currentChunk) chunks.push(currentChunk.trim())` */
  function Flush(p: Packing): seq<string> {
    if p.current != [] then p.chunks + [Trim(p.current)] else p.chunks
  }

  /** One iteration of the loop over lines. */
  function PackLine(p: Packing, line: string, maxLength: nat, mode: LongLines): Packing {
    if |p.current + line + "\n"| > maxLength then
      if |line| > maxLength && mode == Truncate then
        Packing(Flush(p), Truncated(line, maxLength))
      else if |line| > maxLength && mode == WordWrap then
        var w := PackWords(Split(line, " "), maxLength);
        Packing(Flush(p) + w.chunks, w.current)
      else
        Packing(Flush(p), line + "\n")
    else
      Packing(p.chunks, p.current + line + "\n")
  }

  function PackLines(lines: seq<string>, maxLength: nat, mode: LongLines): Packing
    decreases |lines|
  {
    if lines == [] then Packing([], "")
    else PackLine(PackLines(lines[..|lines| - 1], maxLength, mode), lines[|lines| - 1], maxLength, mode)
  }

  /** The chunks `splitContent(content, maxLength)` returns: the packed lines
      of `content.split("\n")`, then the open chunk, trimmed, unless it is blank. */
  function Chunks(content: string, maxLength: nat, mode: LongLines): seq<string> {
    var p := PackLines(Split(content, "\n"), maxLength, mode);
    if IsBlank(p.current) then p.chunks else p.chunks + [Trim(p.current)]
  }

  /** The inner loop of the word-wrapping variant over `line.split(" ")`;
      returns the chunks it pushes and the final `tempLine`. */
  method WrapWords(words: seq<string>, maxLength: nat) returns (pushed: seq<string>, temp: string)
    ensures Packing(pushed, temp) == PackWords(words, maxLength)
  {
    pushed, temp := [], "";
    for j := 0 to |words|
      invariant Packing(pushed, temp) == PackWords(words[..j], maxLength)
    {
      PackWordsSnoc(words, j, maxLength);
      ghost var before := Packing(pushed, temp);
      var word := words[j];
      if |temp + word + " "| > maxLength {
        pushed := pushed + [Trim(temp)];
        temp := "";
        EmptyAppend(word + " ");
      }
      temp := temp + word + " ";
      assert Packing(pushed, temp) == PackWord(before, word, maxLength);
    }
    assert words[..|words|] == words;
  }

  lemma PackWordsSnoc(words: seq<string>, j: nat, maxLength: nat)
    requires j < |words|
    ensures PackWords(words[..j + 1], maxLength) == PackWord(PackWords(words[..j], maxLength), words[j], maxLength)
  {
    assert words[..j + 1][..j] == words[..j];
  }

  lemma PackLinesSnoc(lines: seq<string>, i: nat, maxLength: nat, mode: LongLines)
    requires i < |lines|
    ensures PackLines(lines[..i + 1], maxLength, mode) == PackLine(PackLines(lines[..i], maxLength, mode), lines[i], maxLength, mode)
  {
    assert lines[..i + 1][..i] == lines[..i];
  }

  /** `splitContent(content, maxLength)`, with the loop of the scripts. */
  method SplitContent(content: string, maxLength: nat, mode: LongLines) returns (chunks: seq<string>)
    ensures chunks == Chunks(content, maxLength, mode)
  {
    var lines := Split(content, "\n");
    chunks := [];
    var current := "";
    for i := 0 to |lines|
      invariant Packing(chunks, current) == PackLines(lines[..i], maxLength, mode)
    {
      PackLinesSnoc(lines, i, maxLength, mode);
      ghost var before := Packing(chunks, current);
      var line := lines[i];
      if |current + line + "\n"| > maxLength {
        if current != "" {
          chunks := chunks + [Trim(current)];
          current := "";
        }
        assert chunks == Flush(before);
        if |line| > maxLength && mode == Truncate {
          current := Truncated(line, maxLength);
        } else if |line| > maxLength && mode == WordWrap {
          var pushed, temp := WrapWords(Split(line, " "), maxLength);
          chunks := chunks + pushed;
          if temp != "" {
            current := temp;
          }
        } else {
          current := line + "\n";
        }
      } else {
        current := current + line + "\n";
      }
      assert Packing(chunks, current) == PackLine(before, line, maxLength, mode);
    }
    assert lines[..|lines|] == lines;
    if !IsBlank(current) {
      chunks := chunks + [Trim(current)];
    }
  }
}

/** What the line splitters promise about their output. */
module LineSplitterFacts {
  import opened Text
  import opened LineSplitter

  /** The text a source line contributes: itself, or its truncation. */
  function Shown(line: string, maxLength: nat, mode: LongLines): string {
    if mode == Truncate && |line| > maxLength then Truncated(line, maxLength) else line
  }

  function ShownLines(lines: seq<string>, maxLength: nat, mode: LongLines): (r: seq<string>)
    ensures |r| == |lines|
    decreases |lines|
  {
    if lines == [] then []
    else ShownLines(lines[..|lines| - 1], maxLength, mode) + [Shown(lines[|lines| - 1], maxLength, mode)]
  }

  lemma SqueezeSnoc(parts: seq<string>, x: string)
    ensures Squeeze(Concat(parts + [x])) == Squeeze(Concat(parts)) + Squeeze(x)
  {
    assert (parts + [x])[..|parts|] == parts;
    SqueezeAppend(Concat(parts), x);
  }

  lemma SqueezeConcatLast(parts: seq<string>)
    requires parts != []
    ensures Squeeze(Concat(parts)) == Squeeze(Concat(parts[..|parts| - 1])) + Squeeze(parts[|parts| - 1])
  {
    SqueezeAppend(Concat(parts[..|parts| - 1]), parts[|parts| - 1]);
  }

  lemma SqueezeFlush(p: Packing)
    ensures Squeeze(Concat(Flush(p))) == Squeeze(Concat(p.chunks)) + Squeeze(p.current)
  {
    if p.current != [] {
      SqueezeSnoc(p.chunks, Trim(p.current));
      SqueezeTrim(p.current);
    }
  }

  /** Appending a text and a whitespace character adds only the text. */
  lemma SqueezeAppendSpace(s: string, t: string, c: char)
    requires IsSpace(c)
    ensures Squeeze(s + t + [c]) == Squeeze(s) + Squeeze(t)
  {
    assert (s + t + [c])[..|s + t|] == s + t;
    SqueezeAppend(s, t);
  }

  /** The text of a packing: what has been pushed, then the open chunk. */
  function Said(p: Packing): string {
    Squeeze(Concat(p.chunks)) + Squeeze(p.current)
  }

  lemma PackWordKeepsText(p: Packing, word: string, maxLength: nat)
    ensures Said(PackWord(p, word, maxLength)) == Said(p) + Squeeze(word)
  {
    if |p.current + word + " "| > maxLength {
      assert PackWord(p, word, maxLength) == Packing(p.chunks + [Trim(p.current)], word + " ");
      SqueezeSnoc(p.chunks, Trim(p.current));
      SqueezeTrim(p.current);
      SqueezeSpaceAfter(word, ' ');
    } else {
      assert PackWord(p, word, maxLength) == Packing(p.chunks, p.current + word + " ");
      SqueezeAppendSpace(p.current, word, ' ');
      AppendAssoc(Squeeze(Concat(p.chunks)), Squeeze(p.current), Squeeze(word));
    }
  }

  /** A trailing whitespace character adds nothing. */
  lemma SqueezeSpaceAfter(t: string, c: char)
    requires IsSpace(c)
    ensures Squeeze(t + [c]) == Squeeze(t)
  {
    SqueezeAppendSpace([], t, c);
    EmptyAppend(t);
    EmptyAppend(Squeeze(t));
  }

  lemma {:induction false} PackWordsKeepsText(words: seq<string>, maxLength: nat)
    ensures Said(PackWords(words, maxLength)) == Squeeze(Concat(words))
    decreases |words|
  {
    if words != [] {
      PackWordsKeepsText(words[..|words| - 1], maxLength);
      PackWordKeepsText(PackWords(words[..|words| - 1], maxLength), words[|words| - 1], maxLength);
      SqueezeConcatLast(words);
    }
  }

  lemma SaidAfter(pushed: seq<string>, p: Packing)
    ensures Said(Packing(pushed + p.chunks, p.current)) == Squeeze(Concat(pushed)) + Said(p)
  {
    ConcatAppend(pushed, p.chunks);
    SqueezeAppend(Concat(pushed), Concat(p.chunks));
    AppendAssoc(Squeeze(Concat(pushed)), Squeeze(Concat(p.chunks)), Squeeze(p.current));
  }

  /** Wrapping a long line word by word keeps its text. */
  lemma WrapKeepsText(line: string, maxLength: nat)
    ensures Said(PackWords(Split(line, " "), maxLength)) == Squeeze(line)
  {
    PackWordsKeepsText(Split(line, " "), maxLength);
    SplitJoins(line, " ");
    SqueezeJoin(Split(line, " "), " ");
  }

  lemma PackLineKeepsText(p: Packing, line: string, maxLength: nat, mode: LongLines)
    ensures Said(PackLine(p, line, maxLength, mode)) == Said(p) + Squeeze(Shown(line, maxLength, mode))
  {
    if |p.current + line + "\n"| > maxLength {
      SqueezeFlush(p);
      if |line| > maxLength && mode == Truncate {
        assert PackLine(p, line, maxLength, mode) == Packing(Flush(p), Truncated(line, maxLength));
      } else if |line| > maxLength && mode == WordWrap {
        var w := PackWords(Split(line, " "), maxLength);
        assert PackLine(p, line, maxLength, mode) == Packing(Flush(p) + w.chunks, w.current);
        WrapKeepsText(line, maxLength);
        SaidAfter(Flush(p), w);
      } else {
        assert PackLine(p, line, maxLength, mode) == Packing(Flush(p), line + "\n");
        SqueezeSpaceAfter(line, '\n');
      }
    } else {
      assert PackLine(p, line, maxLength, mode) == Packing(p.chunks, p.current + line + "\n");
      SqueezeAppendSpace(p.current, line, '\n');
      AppendAssoc(Squeeze(Concat(p.chunks)), Squeeze(p.current), Squeeze(line));
    }
  }

  lemma {:induction false} PackLinesKeepsText(lines: seq<string>, maxLength: nat, mode: LongLines)
    ensures Said(PackLines(lines, maxLength, mode)) == Squeeze(Concat(ShownLines(lines, maxLength, mode)))
    decreases |lines|
  {
    if lines != [] {
      var init := lines[..|lines| - 1];
      PackLinesKeepsText(init, maxLength, mode);
      PackLineKeepsText(PackLines(init, maxLength, mode), lines[|lines| - 1], maxLength, mode);
      SqueezeConcatLast(ShownLines(lines, maxLength, mode));
    }
  }

  /** The chunks hold the lines as the variant shows them, in source order:
      nothing but whitespace is added, dropped or moved. */
  lemma ChunksKeepText(content: string, maxLength: nat, mode: LongLines)
    ensures Squeeze(Concat(Chunks(content, maxLength, mode)))
         == Squeeze(Concat(ShownLines(Split(content, "\n"), maxLength, mode)))
  {
    var p := PackLines(Split(content, "\n"), maxLength, mode);
    PackLinesKeepsText(Split(content, "\n"), maxLength, mode);
    if IsBlank(p.current) {
      assert Chunks(content, maxLength, mode) == p.chunks;
      BlankIffSqueezeEmpty(p.current);
      AppendEmpty(Squeeze(Concat(p.chunks)));
    } else {
      assert Chunks(content, maxLength, mode) == p.chunks + [Trim(p.current)];
      SqueezeSnoc(p.chunks, Trim(p.current));
      SqueezeTrim(p.current);
    }
  }

  lemma {:induction false} ShownUnchanged(lines: seq<string>, maxLength: nat, mode: LongLines)
    requires mode != Truncate
    ensures ShownLines(lines, maxLength, mode) == lines
    decreases |lines|
  {
    if lines != [] {
      ShownUnchanged(lines[..|lines| - 1], maxLength, mode);
    }
  }

  /** Without truncation, the chunks hold exactly the text of `content`, in order. */
  lemma ChunksKeepContent(content: string, maxLength: nat, mode: LongLines)
    requires mode != Truncate
    ensures Squeeze(Concat(Chunks(content, maxLength, mode))) == Squeeze(content)
  {
    var lines := Split(content, "\n");
    ChunksKeepText(content, maxLength, mode);
    ShownUnchanged(lines, maxLength, mode);
    SplitJoins(content, "\n");
    NewlineIsSpace();
    SqueezeJoin(lines, "\n");
  }

  lemma NewlineIsSpace()
    ensures AllSpace("\n")
  {
    assert "\n"[0] == '\n';
  }

  /** At most `maxLength` long, or one longer with a trailing whitespace
      character that trimming drops (a full line plus its "\n"). */
  predicate FitsTrimmed(s: string, maxLength: nat) {
    |s| <= maxLength || (|s| == maxLength + 1 && IsSpace(s[|s| - 1]))
  }

  lemma FitsTrim(s: string, maxLength: nat)
    requires FitsTrimmed(s, maxLength)
    ensures |Trim(s)| <= maxLength
  {
    if |s| > maxLength {
      TrimDropsTrailingSpace(s);
    }
  }

  predicate AllFit(chunks: seq<string>, maxLength: nat) {
    forall k | 0 <= k < |chunks| :: |chunks[k]| <= maxLength
  }

  lemma TruncatePackLine(p: Packing, line: string, maxLength: nat)
    requires maxLength >= 3
    requires AllFit(p.chunks, maxLength) && FitsTrimmed(p.current, maxLength)
    ensures var q := PackLine(p, line, maxLength, Truncate);
      AllFit(q.chunks, maxLength) && FitsTrimmed(q.current, maxLength)
  {
    if |p.current + line + "\n"| > maxLength {
      FlushFits(p, maxLength);
      if |line| > maxLength {
        assert PackLine(p, line, maxLength, Truncate) == Packing(Flush(p), Truncated(line, maxLength));
      } else {
        LineFitsTrimmed(line, maxLength);
        assert PackLine(p, line, maxLength, Truncate) == Packing(Flush(p), line + "\n");
      }
    } else {
      assert PackLine(p, line, maxLength, Truncate) == Packing(p.chunks, p.current + line + "\n");
    }
  }

  lemma FlushFits(p: Packing, maxLength: nat)
    requires AllFit(p.chunks, maxLength) && FitsTrimmed(p.current, maxLength)
    ensures AllFit(Flush(p), maxLength)
  {
    if p.current != [] {
      FitsTrim(p.current, maxLength);
      AllFitSnoc(p.chunks, Trim(p.current), maxLength);
    }
  }

  /** A line within the limit, with its "\n", fits once trimmed. */
  lemma LineFitsTrimmed(line: string, maxLength: nat)
    requires |line| <= maxLength
    ensures FitsTrimmed(line + "\n", maxLength)
  {
    assert (line + "\n")[|line|] == '\n';
  }

  lemma {:induction false} TruncatePackLines(lines: seq<string>, maxLength: nat)
    requires maxLength >= 3
    ensures var p := PackLines(lines, maxLength, Truncate);
      AllFit(p.chunks, maxLength) && FitsTrimmed(p.current, maxLength)
    decreases |lines|
  {
    if lines != [] {
      TruncatePackLines(lines[..|lines| - 1], maxLength);
      TruncatePackLine(PackLines(lines[..|lines| - 1], maxLength, Truncate), lines[|lines| - 1], maxLength);
    }
  }

  /** With truncation and a limit of at least 3, no chunk is longer than the limit. */
  lemma TruncatedChunksFit(content: string, maxLength: nat)
    requires maxLength >= 3
    ensures AllFit(Chunks(content, maxLength, Truncate), maxLength)
  {
    var lines := Split(content, "\n");
    var p := PackLines(lines, maxLength, Truncate);
    TruncatePackLines(lines, maxLength);
    if IsBlank(p.current) {
      assert Chunks(content, maxLength, Truncate) == p.chunks;
    } else {
      FitsTrim(p.current, maxLength);
      AllFitSnoc(p.chunks, Trim(p.current), maxLength);
      assert Chunks(content, maxLength, Truncate) == p.chunks + [Trim(p.current)];
    }
  }

  lemma AllFitSnoc(chunks: seq<string>, c: string, maxLength: nat)
    requires AllFit(chunks, maxLength) && |c| <= maxLength
    ensures AllFit(chunks + [c], maxLength)
  {
  }

  /** `c` is one of `lines`, trimmed. */
  predicate IsLineOf(c: string, lines: seq<string>) {
    exists j | 0 <= j < |lines| :: c == Trim(lines[j])
  }

  lemma IsLineOfExtend(c: string, lines: seq<string>, n: nat)
    requires n <= |lines| && IsLineOf(c, lines[..n])
    ensures IsLineOf(c, lines)
  {
    var j :| 0 <= j < n && c == Trim(lines[..n][j]);
    assert lines[..n][j] == lines[j];
  }

  /** The chunk invariant of the variant without truncation: a chunk over the
      limit is a single trimmed line. */
  predicate KeepChunks(chunks: seq<string>, lines: seq<string>, maxLength: nat) {
    forall k | 0 <= k < |chunks| :: |chunks[k]| <= maxLength || IsLineOf(chunks[k], lines)
  }

  /** ... and the open chunk over the limit is a single line and its "\n". */
  predicate KeepCurrent(current: string, lines: seq<string>, maxLength: nat) {
    |current| <= maxLength || exists j | 0 <= j < |lines| :: current == lines[j] + "\n"
  }

  lemma KeepChunksSnoc(chunks: seq<string>, c: string, lines: seq<string>, maxLength: nat)
    requires KeepChunks(chunks, lines, maxLength)
    requires |c| <= maxLength || IsLineOf(c, lines)
    ensures KeepChunks(chunks + [c], lines, maxLength)
  {
  }

  lemma KeepPackLine(p: Packing, lines: seq<string>, maxLength: nat)
    requires lines != []
    requires KeepChunks(p.chunks, lines[..|lines| - 1], maxLength)
    requires KeepCurrent(p.current, lines[..|lines| - 1], maxLength)
    ensures var q := PackLine(p, lines[|lines| - 1], maxLength, Keep);
      KeepChunks(q.chunks, lines, maxLength) && KeepCurrent(q.current, lines, maxLength)
  {
    var n := |lines| - 1;
    var line := lines[n];
    KeepChunksWiden(p.chunks, lines, n, maxLength);
    KeepCurrentWiden(p.current, lines, n, maxLength);
    if |p.current + line + "\n"| > maxLength {
      KeepFlush(p, lines, maxLength);
      assert KeepCurrent(lines[n] + "\n", lines, maxLength);
      assert PackLine(p, line, maxLength, Keep) == Packing(Flush(p), line + "\n");
    } else {
      assert PackLine(p, line, maxLength, Keep) == Packing(p.chunks, p.current + line + "\n");
    }
  }

  lemma KeepChunksWiden(chunks: seq<string>, lines: seq<string>, n: nat, maxLength: nat)
    requires n <= |lines| && KeepChunks(chunks, lines[..n], maxLength)
    ensures KeepChunks(chunks, lines, maxLength)
  {
    forall k | 0 <= k < |chunks| && |chunks[k]| > maxLength ensures IsLineOf(chunks[k], lines) {
      IsLineOfExtend(chunks[k], lines, n);
    }
  }

  lemma KeepCurrentWiden(current: string, lines: seq<string>, n: nat, maxLength: nat)
    requires n <= |lines| && KeepCurrent(current, lines[..n], maxLength)
    ensures KeepCurrent(current, lines, maxLength)
  {
    if |current| > maxLength {
      var j :| 0 <= j < n && current == lines[..n][j] + "\n";
      assert lines[..n][j] == lines[j];
    }
  }

  /** Pushing the open chunk keeps the chunk invariant. */
  lemma KeepFlush(p: Packing, lines: seq<string>, maxLength: nat)
    requires KeepChunks(p.chunks, lines, maxLength) && KeepCurrent(p.current, lines, maxLength)
    ensures KeepChunks(Flush(p), lines, maxLength)
  {
    if p.current != [] {
      var c := Trim(p.current);
      if |c| > maxLength {
        var j :| 0 <= j < |lines| && p.current == lines[j] + "\n";
        TrimSpaceEnd(lines[j], '\n');
        assert IsLineOf(c, lines);
      }
      KeepChunksSnoc(p.chunks, c, lines, maxLength);
    }
  }

  lemma {:induction false} KeepPackLines(lines: seq<string>, maxLength: nat)
    ensures var p := PackLines(lines, maxLength, Keep);
      KeepChunks(p.chunks, lines, maxLength) && KeepCurrent(p.current, lines, maxLength)
    decreases |lines|
  {
    if lines != [] {
      var init := lines[..|lines| - 1];
      KeepPackLines(init, maxLength);
      KeepPackLine(PackLines(init, maxLength, Keep), lines, maxLength);
    }
  }

  /** Without truncation, a chunk longer than the limit is one source line. */
  lemma KeptChunksAreLines(content: string, maxLength: nat)
    ensures KeepChunks(Chunks(content, maxLength, Keep), Split(content, "\n"), maxLength)
  {
    var lines := Split(content, "\n");
    var p := PackLines(lines, maxLength, Keep);
    KeepPackLines(lines, maxLength);
    if !IsBlank(p.current) {
      var last := Trim(p.current);
      assert Chunks(content, maxLength, Keep) == p.chunks + [last];
      if |last| > maxLength {
        var j :| 0 <= j < |lines| && p.current == lines[j] + "\n";
        TrimSpaceEnd(lines[j], '\n');
        assert IsLineOf(last, lines);
      }
      KeepChunksSnoc(p.chunks, last, lines, maxLength);
    }
  }

  /** No space and no line break: a single word, which the word-wrapping
      variant never breaks. */
  predicate Unbreakable(s: string) {
    ' ' !in s && '\n' !in s
  }

  /** The chunk invariant of the word-wrapping variant: a chunk over the limit
      is a single word. */
  predicate WrapChunks(chunks: seq<string>, maxLength: nat) {
    forall k | 0 <= k < |chunks| :: |chunks[k]| <= maxLength || Unbreakable(chunks[k])
  }

  lemma WrapChunksAppend(a: seq<string>, b: seq<string>, maxLength: nat)
    requires WrapChunks(a, maxLength) && WrapChunks(b, maxLength)
    ensures WrapChunks(a + b, maxLength)
  {
    forall k | 0 <= k < |a + b| ensures |(a + b)[k]| <= maxLength || Unbreakable((a + b)[k]) {
      if k >= |a| {
        assert (a + b)[k] == b[k - |a|];
      }
    }
  }

  lemma UnbreakableTrim(s: string)
    requires Unbreakable(s)
    ensures Unbreakable(Trim(s))
  {
    if ' ' in Trim(s) {
      TrimChars(s, ' ');
    }
    if '\n' in Trim(s) {
      TrimChars(s, '\n');
    }
  }

  lemma WrapPackWord(p: Packing, word: string, maxLength: nat)
    requires Unbreakable(word)
    requires WrapChunks(p.chunks, maxLength)
    requires |p.current| <= maxLength || Unbreakable(Trim(p.current))
    ensures var q := PackWord(p, word, maxLength);
      WrapChunks(q.chunks, maxLength) && (|q.current| <= maxLength || Unbreakable(Trim(q.current)))
  {
    var q := PackWord(p, word, maxLength);
    if |p.current + word + " "| > maxLength {
      var c := Trim(p.current);
      assert q == Packing(p.chunks + [c], word + " ");
      TrimSpaceEnd(word, ' ');
      UnbreakableTrim(word);
      assert Unbreakable(Trim(q.current));
      assert |c| <= maxLength || Unbreakable(c);
      assert WrapChunks([c], maxLength);
      WrapChunksAppend(p.chunks, [c], maxLength);
    } else {
      assert q == Packing(p.chunks, p.current + word + " ");
    }
  }

  lemma {:induction false} WrapPackWords(words: seq<string>, maxLength: nat)
    requires forall k | 0 <= k < |words| :: Unbreakable(words[k])
    ensures var w := PackWords(words, maxLength);
      WrapChunks(w.chunks, maxLength) && (|w.current| <= maxLength || Unbreakable(Trim(w.current)))
    decreases |words|
  {
    if words != [] {
      var init := words[..|words| - 1];
      WrapPackWords(init, maxLength);
      WrapPackWord(PackWords(init, maxLength), words[|words| - 1], maxLength);
    }
  }

  /** The words of a line are unbreakable. */
  lemma WordsUnbreakable(line: string)
    requires '\n' !in line
    ensures forall k | 0 <= k < |Split(line, " ")| :: Unbreakable(Split(line, " ")[k])
  {
    var words := Split(line, " ");
    SplitJoins(line, " ");
    SplitPiecesClean(line, " ");
    forall k | 0 <= k < |words| ensures Unbreakable(words[k]) {
      ContainsChar(words[k], ' ');
      if '\n' in words[k] {
        JoinChars(words, " ", k, '\n');
      }
    }
  }

  /** The lines of a text hold no line break. */
  lemma LinesUnbroken(content: string)
    ensures forall k | 0 <= k < |Split(content, "\n")| :: '\n' !in Split(content, "\n")[k]
  {
    var lines := Split(content, "\n");
    SplitPiecesClean(content, "\n");
    forall k | 0 <= k < |lines| ensures '\n' !in lines[k] {
      ContainsChar(lines[k], '\n');
    }
  }

  predicate WrapCurrent(current: string, maxLength: nat) {
    FitsTrimmed(current, maxLength) || Unbreakable(Trim(current))
  }

  lemma WrapFlush(p: Packing, maxLength: nat)
    requires WrapChunks(p.chunks, maxLength) && WrapCurrent(p.current, maxLength)
    ensures WrapChunks(Flush(p), maxLength)
  {
    if p.current != [] {
      if FitsTrimmed(p.current, maxLength) {
        FitsTrim(p.current, maxLength);
      }
      WrapChunksAppend(p.chunks, [Trim(p.current)], maxLength);
    }
  }

  lemma WrapPackLine(p: Packing, line: string, maxLength: nat)
    requires '\n' !in line
    requires WrapChunks(p.chunks, maxLength) && WrapCurrent(p.current, maxLength)
    ensures var q := PackLine(p, line, maxLength, WordWrap);
      WrapChunks(q.chunks, maxLength) && WrapCurrent(q.current, maxLength)
  {
    var q := PackLine(p, line, maxLength, WordWrap);
    if |p.current + line + "\n"| > maxLength {
      WrapFlush(p, maxLength);
      if |line| > maxLength {
        var words := Split(line, " ");
        WordsUnbreakable(line);
        WrapPackWords(words, maxLength);
        WrapChunksAppend(Flush(p), PackWords(words, maxLength).chunks, maxLength);
      } else {
        assert q.current == line + "\n";
      }
    }
  }

  lemma {:induction false} WrapPackLines(lines: seq<string>, maxLength: nat)
    requires forall k | 0 <= k < |lines| :: '\n' !in lines[k]
    ensures var p := PackLines(lines, maxLength, WordWrap);
      WrapChunks(p.chunks, maxLength) && WrapCurrent(p.current, maxLength)
    decreases |lines|
  {
    if lines != [] {
      var init := lines[..|lines| - 1];
      WrapPackLines(init, maxLength);
      WrapPackLine(PackLines(init, maxLength, WordWrap), lines[|lines| - 1], maxLength);
    }
  }

  /** With word wrapping, a chunk longer than the limit is a single word. */
  lemma WrappedChunksFit(content: string, maxLength: nat)
    ensures WrapChunks(Chunks(content, maxLength, WordWrap), maxLength)
  {
    var lines := Split(content, "\n");
    var p := PackLines(lines, maxLength, WordWrap);
    LinesUnbroken(content);
    WrapPackLines(lines, maxLength);
    if !IsBlank(p.current) {
      assert Chunks(content, maxLength, WordWrap) == p.chunks + [Trim(p.current)];
      WrapFlush(Packing(p.chunks, p.current), maxLength);
    }
  }

  /** `t`, trimmed, lies inside one of `chunks`. */
  predicate Inside(t: string, chunks: seq<string>) {
    exists j | 0 <= j < |chunks| :: Contains(chunks[j], Trim(t))
  }

  /** `t` is still whole: inside a pushed chunk or in the open one. */
  predicate Kept(t: string, p: Packing) {
    Inside(t, p.chunks) || Contains(p.current, t)
  }

  lemma InsideAppend(t: string, a: seq<string>, b: seq<string>)
    ensures Inside(t, a) ==> Inside(t, a + b)
    ensures Inside(t, b) ==> Inside(t, a + b)
  {
    if Inside(t, a) {
      var j :| 0 <= j < |a| && Contains(a[j], Trim(t));
      assert (a + b)[j] == a[j];
    }
    if Inside(t, b) {
      var j :| 0 <= j < |b| && Contains(b[j], Trim(t));
      assert (a + b)[|a| + j] == b[j];
    }
  }

  /** Pushing the open chunk, trimmed, keeps what it holds. */
  lemma KeptPush(t: string, p: Packing)
    requires Kept(t, p) && !IsBlank(t)
    ensures Inside(t, p.chunks + [Trim(p.current)])
  {
    InsideAppend(t, p.chunks, [Trim(p.current)]);
    if !Inside(t, p.chunks) {
      ContainsTrim(p.current, t);
      assert (p.chunks + [Trim(p.current)])[|p.chunks|] == Trim(p.current);
    }
  }

  lemma KeptFlush(t: string, p: Packing)
    requires Kept(t, p) && !IsBlank(t)
    ensures Inside(t, Flush(p))
  {
    BlankHoldsNothing(p.current, t);
    if p.current != [] {
      KeptPush(t, p);
    }
  }

  /** Growing the open chunk keeps what it holds. */
  lemma KeptGrow(t: string, p: Packing, more: string)
    requires Kept(t, p)
    ensures Kept(t, Packing(p.chunks, p.current + more))
  {
    if Contains(p.current, t) {
      ContainsExtend(p.current, t, [], more);
      EmptyAppend(p.current);
    }
  }

  /** A piece that opens or ends the open chunk is kept. */
  lemma KeptNew(t: string, before: string, after: string, chunks: seq<string>)
    ensures Kept(t, Packing(chunks, before + t + after))
  {
    ContainsSelf(t);
    ContainsExtend(t, t, before, after);
  }

  /** The pieces the variant never breaks: the line itself, or, for a long
      line under word wrapping, its words; a truncated line has none. */
  function Pieces(line: string, maxLength: nat, mode: LongLines): seq<string> {
    if |line| > maxLength && mode == WordWrap then Split(line, " ")
    else if |line| > maxLength && mode == Truncate then []
    else [line]
  }

  predicate AllKept(pieces: seq<string>, p: Packing) {
    forall i | 0 <= i < |pieces| :: !IsBlank(pieces[i]) ==> Kept(pieces[i], p)
  }

  lemma PackWordKeeps(p: Packing, word: string, maxLength: nat, t: string)
    requires !IsBlank(t) && (Kept(t, p) || t == word)
    ensures Kept(t, PackWord(p, word, maxLength))
  {
    if |p.current + word + " "| > maxLength {
      if t == word {
        KeptNew(word, [], " ", p.chunks + [Trim(p.current)]);
        EmptyAppend(word);
      } else {
        KeptPush(t, p);
      }
    } else {
      if t == word {
        KeptNew(word, p.current, " ", p.chunks);
      } else {
        KeptGrow(t, p, word + " ");
        assert p.current + (word + " ") == p.current + word + " ";
      }
    }
  }

  /** One more word keeps the earlier words and the new one. */
  lemma PackWordKeepsAll(words: seq<string>, p: Packing, word: string, maxLength: nat)
    requires AllKept(words, p)
    ensures AllKept(words + [word], PackWord(p, word, maxLength))
  {
    var all := words + [word];
    forall i | 0 <= i < |all| && !IsBlank(all[i]) ensures Kept(all[i], PackWord(p, word, maxLength)) {
      PackWordKeeps(p, word, maxLength, all[i]);
    }
  }

  lemma {:induction false} PackWordsKeep(words: seq<string>, maxLength: nat)
    ensures AllKept(words, PackWords(words, maxLength))
    decreases |words|
  {
    if words != [] {
      var n := |words| - 1;
      PackWordsKeep(words[..n], maxLength);
      PackWordKeepsAll(words[..n], PackWords(words[..n], maxLength), words[n], maxLength);
      assert words[..n] + [words[n]] == words;
    }
  }

  /** An earlier piece stays kept across a line. */
  lemma PackLineKeepsOld(p: Packing, line: string, maxLength: nat, mode: LongLines, t: string)
    requires !IsBlank(t) && Kept(t, p)
    ensures Kept(t, PackLine(p, line, maxLength, mode))
  {
    if |p.current + line + "\n"| > maxLength {
      KeptFlush(t, p);
      if |line| > maxLength && mode == WordWrap {
        InsideAppend(t, Flush(p), PackWords(Split(line, " "), maxLength).chunks);
      }
    } else {
      KeptGrow(t, p, line + "\n");
      assert p.current + (line + "\n") == p.current + line + "\n";
    }
  }

  /** The pieces of a line are kept once it is packed. */
  lemma PackLineKeepsNew(p: Packing, line: string, maxLength: nat, mode: LongLines)
    ensures AllKept(Pieces(line, maxLength, mode), PackLine(p, line, maxLength, mode))
  {
    if |p.current + line + "\n"| > maxLength {
      if |line| > maxLength && mode == WordWrap {
        var words := Split(line, " ");
        var w := PackWords(words, maxLength);
        assert PackLine(p, line, maxLength, mode) == Packing(Flush(p) + w.chunks, w.current);
        assert Pieces(line, maxLength, mode) == words;
        PackWordsKeep(words, maxLength);
        KeptAfter(words, Flush(p), w);
      } else if |line| > maxLength && mode == Truncate {
        assert Pieces(line, maxLength, mode) == [];
      } else {
        assert PackLine(p, line, maxLength, mode) == Packing(Flush(p), line + "\n");
        assert Pieces(line, maxLength, mode) == [line];
        KeptNew(line, [], "\n", Flush(p));
        EmptyAppend(line);
      }
    } else {
      assert PackLine(p, line, maxLength, mode) == Packing(p.chunks, p.current + line + "\n");
      assert Pieces(line, maxLength, mode) == [line];
      KeptNew(line, p.current, "\n", p.chunks);
    }
  }

  /** Chunks pushed before a packing keep what it holds. */
  lemma KeptAfter(pieces: seq<string>, pushed: seq<string>, w: Packing)
    requires AllKept(pieces, w)
    ensures AllKept(pieces, Packing(pushed + w.chunks, w.current))
  {
    forall i | 0 <= i < |pieces| && !IsBlank(pieces[i]) ensures Kept(pieces[i], Packing(pushed + w.chunks, w.current)) {
      InsideAppend(pieces[i], pushed, w.chunks);
    }
  }

  lemma {:induction false} PackLinesKeep(lines: seq<string>, maxLength: nat, mode: LongLines)
    ensures forall k | 0 <= k < |lines| :: AllKept(Pieces(lines[k], maxLength, mode), PackLines(lines, maxLength, mode))
    decreases |lines|
  {
    if lines != [] {
      var n := |lines| - 1;
      var p := PackLines(lines[..n], maxLength, mode);
      PackLinesKeep(lines[..n], maxLength, mode);
      PackLinesKeepStep(lines[..n], p, lines[n], maxLength, mode);
      PackLineKeepsNew(p, lines[n], maxLength, mode);
      KeptJoin(lines, lines[..n], PackLines(lines, maxLength, mode), maxLength, mode);
    }
  }

  /** Packing one more line keeps the pieces of every earlier line. */
  lemma PackLinesKeepStep(init: seq<string>, p: Packing, line: string, maxLength: nat, mode: LongLines)
    requires forall k | 0 <= k < |init| :: AllKept(Pieces(init[k], maxLength, mode), p)
    ensures forall k | 0 <= k < |init| :: AllKept(Pieces(init[k], maxLength, mode), PackLine(p, line, maxLength, mode))
  {
    forall k | 0 <= k < |init| ensures AllKept(Pieces(init[k], maxLength, mode), PackLine(p, line, maxLength, mode)) {
      PackLineKeepsAll(Pieces(init[k], maxLength, mode), p, line, maxLength, mode);
    }
  }

  lemma KeptJoin(lines: seq<string>, init: seq<string>, q: Packing, maxLength: nat, mode: LongLines)
    requires lines != [] && init == lines[..|lines| - 1]
    requires forall k | 0 <= k < |init| :: AllKept(Pieces(init[k], maxLength, mode), q)
    requires AllKept(Pieces(lines[|lines| - 1], maxLength, mode), q)
    ensures forall k | 0 <= k < |lines| :: AllKept(Pieces(lines[k], maxLength, mode), q)
  {
    forall k | 0 <= k < |lines| ensures AllKept(Pieces(lines[k], maxLength, mode), q) {
      if k < |lines| - 1 {
        assert init[k] == lines[k];
      }
    }
  }

  /** Packing one more line keeps every piece kept before. */
  lemma PackLineKeepsAll(pieces: seq<string>, p: Packing, line: string, maxLength: nat, mode: LongLines)
    requires AllKept(pieces, p)
    ensures AllKept(pieces, PackLine(p, line, maxLength, mode))
  {
    forall i | 0 <= i < |pieces| && !IsBlank(pieces[i]) ensures Kept(pieces[i], PackLine(p, line, maxLength, mode)) {
      PackLineKeepsOld(p, line, maxLength, mode, pieces[i]);
    }
  }

  /** Every non-blank piece the variant does not cut (a line within the limit,
      any line without truncation, a word of a long line under word wrapping)
      appears whole, trimmed, inside a single chunk. */
  lemma PieceStaysWhole(content: string, maxLength: nat, mode: LongLines, k: nat, i: nat)
    requires k < |Split(content, "\n")| && i < |Pieces(Split(content, "\n")[k], maxLength, mode)|
    requires !IsBlank(Pieces(Split(content, "\n")[k], maxLength, mode)[i])
    ensures Inside(Pieces(Split(content, "\n")[k], maxLength, mode)[i], Chunks(content, maxLength, mode))
  {
    var lines := Split(content, "\n");
    var p := PackLines(lines, maxLength, mode);
    var t := Pieces(lines[k], maxLength, mode)[i];
    PackLinesKeep(lines, maxLength, mode);
    assert Kept(t, p);
    BlankHoldsNothing(p.current, t);
    if !IsBlank(p.current) {
      KeptPush(t, p);
    }
  }

  lemma PiecesStayWhole(content: string, maxLength: nat, mode: LongLines)
    ensures var lines := Split(content, "\n");
      forall k, i | 0 <= k < |lines| && 0 <= i < |Pieces(lines[k], maxLength, mode)| ::
        !IsBlank(Pieces(lines[k], maxLength, mode)[i]) ==> Inside(Pieces(lines[k], maxLength, mode)[i], Chunks(content, maxLength, mode))
  {
    var lines := Split(content, "\n");
    forall k, i | 0 <= k < |lines| && 0 <= i < |Pieces(lines[k], maxLength, mode)| && !IsBlank(Pieces(lines[k], maxLength, mode)[i])
      ensures Inside(Pieces(lines[k], maxLength, mode)[i], Chunks(content, maxLength, mode))
    {
      PieceStaysWhole(content, maxLength, mode, k, i);
    }
  }
}
