/** The JavaScript string operations the content scripts and handlers rely on:
    `trim`, `split`, `join`, `startsWith`, `includes`, ASCII `toLowerCase`.
    Strings are sequences of characters. */
module Text {
  import opened Wrappers

  /** The characters ECMAScript's `String.prototype.trim` removes: the WhiteSpace
      set (TAB, VT, FF, SP, NBSP, ZWNBSP and the Unicode "Zs" category) and the
      LineTerminator set (LF, CR, LS, PS). */
  predicate IsSpace(c: char) {
    var n := c as int;
    (9 <= n <= 13) || n == 0x20 || n == 0xA0 || n == 0x1680 || (0x2000 <= n <= 0x200A)
    || n == 0x2028 || n == 0x2029 || n == 0x202F || n == 0x205F || n == 0x3000 || n == 0xFEFF
  }

  predicate AllSpace(s: string) {
    forall i | 0 <= i < |s| :: IsSpace(s[i])
  }

  /** `s.trimStart()` */
  function TrimStart(s: string): (r: string)
    ensures |r| <= |s|
    ensures r == [] || !IsSpace(r[0])
  {
    if s != [] && IsSpace(s[0]) then TrimStart(s[1..]) else s
  }

  /** What `trimStart` leaves is a suffix of the text. */
  lemma {:induction false} TrimStartSuffix(s: string)
    ensures TrimStart(s) == s[|s| - |TrimStart(s)|..]
  {
    if s != [] && IsSpace(s[0]) {
      TrimStartSuffix(s[1..]);
    }
  }

  /** `s.trimEnd()` */
  function TrimEnd(s: string): (r: string)
    ensures |r| <= |s|
    ensures r == [] || !IsSpace(r[|r| - 1])
  {
    if s != [] && IsSpace(s[|s| - 1]) then TrimEnd(s[..|s| - 1]) else s
  }

  /** What `trimEnd` leaves is a prefix of the text. */
  lemma {:induction false} TrimEndPrefix(s: string)
    ensures TrimEnd(s) == s[..|TrimEnd(s)|]
  {
    if s != [] && IsSpace(s[|s| - 1]) {
      TrimEndPrefix(s[..|s| - 1]);
    }
  }

  /** `s.trim()`: the part of `s` between its leading and trailing whitespace. */
  function Trim(s: string): (r: string)
    ensures |r| <= |s|
    ensures r == [] || (!IsSpace(r[0]) && !IsSpace(r[|r| - 1]))
  {
    TrimStartSuffix(TrimEnd(s));
    TrimStart(TrimEnd(s))
  }

  lemma {:induction false} TrimStartRemovesSpace(s: string)
    ensures AllSpace(s[..|s| - |TrimStart(s)|])
    decreases |s|
  {
    if s != [] && IsSpace(s[0]) {
      var k := |s| - |TrimStart(s)|;
      assert TrimStart(s) == TrimStart(s[1..]);
      TrimStartRemovesSpace(s[1..]);
      PrefixCons(s, k);
      AllSpaceCons(s[0], s[1..][..k - 1]);
    }
  }

  lemma PrefixCons(s: string, k: nat)
    requires 1 <= k <= |s|
    ensures s[..k] == [s[0]] + s[1..][..k - 1]
  {
  }

  lemma AllSpaceCons(c: char, t: string)
    requires IsSpace(c) && AllSpace(t)
    ensures AllSpace([c] + t)
  {
    forall i | 0 <= i < |[c] + t| ensures IsSpace(([c] + t)[i]) {
      if i > 0 {
        assert ([c] + t)[i] == t[i - 1];
      }
    }
  }

  lemma {:induction false} TrimEndRemovesSpace(s: string)
    ensures AllSpace(s[|TrimEnd(s)|..])
    decreases |s|
  {
    if s != [] && IsSpace(s[|s| - 1]) {
      TrimEndRemovesSpace(s[..|s| - 1]);
      assert s[|TrimEnd(s)|..] == s[..|s| - 1][|TrimEnd(s)|..] + [s[|s| - 1]];
    }
  }

  /** Where `Trim(s)` starts inside `s`. */
  function TrimOffset(s: string): (k: nat)
    ensures k + |Trim(s)| <= |s|
    ensures Trim(s) == s[k..k + |Trim(s)|]
  {
    TrimEndPrefix(s);
    TrimStartSuffix(TrimEnd(s));
    SuffixOfPrefix(s, TrimEnd(s), Trim(s));
    |TrimEnd(s)| - |Trim(s)|
  }

  /** A suffix `t` of a prefix `e` of `s` is a slice of `s`. */
  lemma SuffixOfPrefix(s: string, e: string, t: string)
    requires |e| <= |s| && e == s[..|e|]
    requires |t| <= |e| && t == e[|e| - |t|..]
    ensures t == s[|e| - |t|..|e|]
  {
  }

  /** `s` is `Trim(s)` surrounded by whitespace. */
  lemma TrimSurround(s: string)
    ensures var k := TrimOffset(s);
      AllSpace(s[..k]) && AllSpace(s[k + |Trim(s)|..])
  {
    TrimLeadIsSpace(s);
    TrimTailIsSpace(s);
  }

  lemma TrimLeadIsSpace(s: string)
    ensures AllSpace(s[..TrimOffset(s)])
  {
    var e, k := TrimEnd(s), TrimOffset(s);
    TrimEndPrefix(s);
    assert k == |e| - |TrimStart(e)|;
    assert s[..k] == e[..k];
    TrimStartRemovesSpace(e);
  }

  lemma TrimTailIsSpace(s: string)
    ensures AllSpace(s[TrimOffset(s) + |Trim(s)|..])
  {
    TrimEndRemovesSpace(s);
    assert TrimOffset(s) + |Trim(s)| == |TrimEnd(s)|;
  }

  /** JavaScript truthiness of `s.trim()`. */
  predicate IsBlank(s: string) {
    Trim(s) == []
  }

  /** The characters of `s` that are not whitespace, in order. Two texts with the
      same `Squeeze` say the same thing and differ only in layout. */
  function Squeeze(s: string): (r: string)
    ensures |r| <= |s|
  {
    if s == [] then [] else Squeeze(s[..|s| - 1]) + (if IsSpace(s[|s| - 1]) then [] else [s[|s| - 1]])
  }

  lemma {:induction false} SqueezeAppend(a: string, b: string)
    ensures Squeeze(a + b) == Squeeze(a) + Squeeze(b)
    decreases |b|
  {
    if b == [] {
      assert a + b == a;
    } else {
      var b' := b[..|b| - 1];
      assert (a + b)[..|a + b| - 1] == a + b';
      SqueezeAppend(a, b');
    }
  }

  lemma {:induction false} SqueezeAllSpace(s: string)
    ensures AllSpace(s) <==> Squeeze(s) == []
    decreases |s|
  {
    if s != [] {
      var init := s[..|s| - 1];
      SqueezeAllSpace(init);
      assert forall i | 0 <= i < |init| :: init[i] == s[i];
    }
  }

  /** Trimming never removes anything but whitespace. */
  lemma SqueezeTrim(s: string)
    ensures Squeeze(Trim(s)) == Squeeze(s)
  {
    var k := TrimOffset(s);
    var n := |Trim(s)|;
    TrimSurround(s);
    var lead, mid, tail := s[..k], s[k..k + n], s[k + n..];
    assert s == lead + mid + tail;
    SqueezeSurround(lead, mid, tail);
  }

  lemma SqueezeSurround(lead: string, t: string, tail: string)
    requires AllSpace(lead) && AllSpace(tail)
    ensures Squeeze(lead + t + tail) == Squeeze(t)
  {
    SqueezeAllSpace(lead);
    SqueezeAllSpace(tail);
    SqueezeAppend(lead + t, tail);
    SqueezeAppend(lead, t);
  }

  /** A text trims to nothing exactly when it is all whitespace. */
  lemma BlankIffSqueezeEmpty(s: string)
    ensures IsBlank(s) <==> Squeeze(s) == []
  {
    SqueezeTrim(s);
    SqueezeAllSpace(Trim(s));
  }

  /** A text trims to nothing exactly when every character of it is whitespace. */
  lemma BlankIffAllSpace(s: string)
    ensures IsBlank(s) <==> AllSpace(s)
  {
    BlankIffSqueezeEmpty(s);
    SqueezeAllSpace(s);
  }

  /** Trimming a text that ends in whitespace shortens it. */
  lemma TrimDropsTrailingSpace(s: string)
    requires s != [] && IsSpace(s[|s| - 1])
    ensures |Trim(s)| < |s|
  {
  }

  /** A trailing whitespace character does not survive trimming. */
  lemma TrimSpaceEnd(s: string, c: char)
    requires IsSpace(c)
    ensures Trim(s + [c]) == Trim(s)
  {
    var t := s + [c];
    assert t[..|t| - 1] == s;
    assert TrimEnd(t) == TrimEnd(s);
  }

  /** Trimming keeps a substring, so it adds no character. */
  lemma TrimChars(s: string, c: char)
    requires c in Trim(s)
    ensures c in s
  {
    var k := TrimOffset(s);
    var i :| 0 <= i < |Trim(s)| && Trim(s)[i] == c;
    assert s[k + i] == c;
  }

  lemma EmptyAppend(s: string)
    ensures "" + s == s
  {
  }

  lemma AppendEmpty(s: string)
    ensures s + "" == s
  {
  }

  lemma AppendAssoc(a: string, b: string, c: string)
    ensures a + b + c == a + (b + c)
  {
  }

  /** The concatenation of a list of strings, `parts.join("")`. */
  function Concat(parts: seq<string>): string {
    if parts == [] then [] else Concat(parts[..|parts| - 1]) + parts[|parts| - 1]
  }

  lemma {:induction false} ConcatAppend(a: seq<string>, b: seq<string>)
    ensures Concat(a + b) == Concat(a) + Concat(b)
    decreases |b|
  {
    if b == [] {
      assert a + b == a;
    } else {
      var init := b[..|b| - 1];
      assert (a + b)[..|a + b| - 1] == a + init;
      assert Concat(a + b) == Concat(a + init) + b[|b| - 1];
      ConcatAppend(a, init);
      assert Concat(b) == Concat(init) + b[|b| - 1];
    }
  }

  /** `parts.join(sep)` */
  function Join(parts: seq<string>, sep: string): string {
    if parts == [] then []
    else if |parts| == 1 then parts[0]
    else parts[0] + sep + Join(parts[1..], sep)
  }

  /** Joining with a whitespace separator adds nothing but layout. */
  lemma {:induction false} SqueezeJoin(parts: seq<string>, sep: string)
    requires AllSpace(sep)
    ensures Squeeze(Join(parts, sep)) == Squeeze(Concat(parts))
    decreases |parts|
  {
    if |parts| == 1 {
      assert parts[..0] == [];
      assert Concat(parts) == Concat([]) + parts[0] == parts[0];
    } else if |parts| >= 2 {
      var head, rest := parts[0], parts[1..];
      SqueezeJoin(rest, sep);
      SqueezeAllSpace(sep);
      ConcatCons(head, rest);
      assert parts == [head] + rest;
      calc {
        Squeeze(Join(parts, sep));
        Squeeze(head + sep + Join(rest, sep));
      ==  { SqueezeAppend(head + sep, Join(rest, sep)); SqueezeAppend(head, sep); }
        Squeeze(head) + Squeeze(Join(rest, sep));
      ==  { SqueezeAppend(head, Concat(rest)); }
        Squeeze(head + Concat(rest));
      }
    }
  }

  lemma ConcatCons(head: string, rest: seq<string>)
    ensures Concat([head] + rest) == head + Concat(rest)
  {
    ConcatAppend([head], rest);
    assert [head][..0] == [];
  }

  /** Every character of a piece occurs in the joined text. */
  lemma {:induction false} JoinChars(parts: seq<string>, sep: string, k: nat, c: char)
    requires k < |parts| && c in parts[k]
    ensures c in Join(parts, sep)
    decreases |parts|
  {
    if k > 0 {
      JoinChars(parts[1..], sep, k - 1, c);
    }
  }

  /** Whether `pat` occurs in `s` at position `k`. */
  predicate OccursAt(s: string, pat: string, k: nat) {
    k + |pat| <= |s| && s[k..k + |pat|] == pat
  }

  lemma OccursShift(s: string, pat: string, k: nat)
    requires 1 <= k && s != []
    ensures OccursAt(s, pat, k) == OccursAt(s[1..], pat, k - 1)
  {
    if k + |pat| <= |s| {
      SliceOfSlice(s, 1, |s|, k - 1, k - 1 + |pat|);
      assert s[1..|s|] == s[1..];
    }
  }

  /** `s.indexOf(pat)`, `None` standing for -1. */
  function IndexOf(s: string, pat: string): (r: Option<nat>)
    ensures r.Some? ==> r.value + |pat| <= |s|
    decreases |s|
  {
    if |s| < |pat| then None
    else if s[..|pat|] == pat then Some(0)
    else
      match IndexOf(s[1..], pat)
      case None => None
      case Some(i) => Some(i + 1)
  }

  /** `IndexOf` finds the first occurrence, and `None` means there is none. */
  lemma {:induction false} IndexOfFirst(s: string, pat: string)
    ensures IndexOf(s, pat).Some? ==> OccursAt(s, pat, IndexOf(s, pat).value)
    ensures IndexOf(s, pat).Some? ==> forall k: nat | k < IndexOf(s, pat).value :: !OccursAt(s, pat, k)
    ensures IndexOf(s, pat).None? ==> forall k: nat :: !OccursAt(s, pat, k)
    decreases |s|
  {
    if |s| >= |pat| && s[..|pat|] != pat {
      IndexOfFirst(s[1..], pat);
      forall k: nat | 1 <= k ensures OccursAt(s, pat, k) == OccursAt(s[1..], pat, k - 1) {
        OccursShift(s, pat, k);
      }
      assert !OccursAt(s, pat, 0);
    }
  }

  /** `s.includes(pat)` */
  predicate Contains(s: string, pat: string) {
    exists k: nat | k <= |s| :: OccursAt(s, pat, k)
  }

  /** The text before the first occurrence of `pat` does not contain it. */
  lemma BeforeFirstOccurrence(s: string, pat: string, i: nat)
    requires pat != [] && i <= |s|
    requires forall k: nat | k < i :: !OccursAt(s, pat, k)
    ensures !Contains(s[..i], pat)
  {
    forall k: nat | k <= i ensures !OccursAt(s[..i], pat, k) {
      if k + |pat| <= i {
        assert !OccursAt(s, pat, k);
        assert s[..i][k..k + |pat|] == s[k..k + |pat|];
      }
    }
  }

  lemma ContainsExtend(s: string, t: string, before: string, after: string)
    requires Contains(s, t)
    ensures Contains(before + s + after, t)
  {
    var k: nat :| k <= |s| && OccursAt(s, t, k);
    assert (before + s + after)[|before| + k..|before| + k + |t|] == s[k..k + |t|];
    assert OccursAt(before + s + after, t, |before| + k);
  }

  lemma ContainsSelf(s: string)
    ensures Contains(s, s)
  {
    assert OccursAt(s, s, 0);
  }

  lemma SliceOfSlice(s: string, a: nat, b: nat, c: nat, d: nat)
    requires a <= b <= |s| && c <= d <= b - a
    ensures s[a..b][c..d] == s[a + c..a + d]
  {
    forall i | 0 <= i < d - c ensures s[a..b][c..d][i] == s[a + c..a + d][i] {
      assert s[a..b][c + i] == s[a + c + i];
    }
  }

  lemma OccursInSlice(u: string, s: string, k: nat, lo: nat, piece: string)
    requires k + |u| <= |s| && u == s[k..k + |u|]
    requires k <= lo && lo + |piece| <= k + |u| && s[lo..lo + |piece|] == piece
    ensures OccursAt(u, piece, lo - k)
  {
    SliceOfSlice(s, k, k + |u|, lo - k, lo - k + |piece|);
  }

  /** A non-whitespace character lies inside the trimmed part. */
  lemma NonSpaceInsideTrim(s: string, i: nat)
    requires i < |s| && !IsSpace(s[i])
    ensures TrimOffset(s) <= i < TrimOffset(s) + |Trim(s)|
  {
    TrimSurround(s);
  }

  /** A piece found at `k` inside an occurrence of `t` at `a` occurs at
      `a + k` in `s`. */
  lemma OccursInside(s: string, t: string, a: nat, k: nat, piece: string)
    requires OccursAt(s, t, a) && OccursAt(t, piece, k)
    ensures OccursAt(s, piece, a + k)
  {
    SliceOfSlice(s, a, a + |t|, k, k + |piece|);
  }

  /** A piece with non-whitespace ends lies inside the trimmed text. */
  lemma PieceInsideTrim(s: string, lo: nat, piece: string)
    requires piece != []
    requires OccursAt(s, piece, lo)
    requires !IsSpace(piece[0])
    requires !IsSpace(piece[|piece| - 1])
    ensures Contains(Trim(s), piece)
  {
    assert s[lo] == piece[0] && s[lo + |piece| - 1] == piece[|piece| - 1];
    NonSpaceInsideTrim(s, lo);
    NonSpaceInsideTrim(s, lo + |piece| - 1);
    OccursInSlice(Trim(s), s, TrimOffset(s), lo, piece);
    var w: nat := lo - TrimOffset(s);
    assert w <= |Trim(s)| && OccursAt(Trim(s), piece, w);
  }

  /** Trimming the text keeps every non-blank piece of it, trimmed. */
  lemma ContainsTrim(s: string, t: string)
    requires Contains(s, t) && !IsBlank(t)
    ensures Contains(Trim(s), Trim(t))
  {
    var a: nat :| a <= |s| && OccursAt(s, t, a);
    TrimmedPiece(t);
    OccursInside(s, t, a, TrimOffset(t), Trim(t));
    PieceInsideTrim(s, a + TrimOffset(t), Trim(t));
  }

  /** A non-blank text holds its trimmed part, whose ends are not whitespace. */
  lemma TrimmedPiece(t: string)
    requires !IsBlank(t)
    ensures OccursAt(t, Trim(t), TrimOffset(t))
    ensures Trim(t) != [] && !IsSpace(Trim(t)[0]) && !IsSpace(Trim(t)[|Trim(t)| - 1])
  {
  }

  /** A blank text holds no non-blank piece. */
  lemma BlankHoldsNothing(s: string, t: string)
    ensures IsBlank(s) && !IsBlank(t) ==> !Contains(s, t)
  {
    if Contains(s, t) && !IsBlank(t) {
      ContainsTrim(s, t);
    }
  }

  /** `s.split(sep)` for a non-empty separator: the pieces between successive
      left-to-right, non-overlapping occurrences of `sep`. */
  function Split(s: string, sep: string): (r: seq<string>)
    requires sep != []
    ensures |r| >= 1
    decreases |s|
  {
    match IndexOf(s, sep)
    case None => [s]
    case Some(i) => [s[..i]] + Split(s[i + |sep|..], sep)
  }

  /** The pieces of `s.split(sep)` joined by `sep` give back `s`. */
  lemma {:induction false} SplitJoins(s: string, sep: string)
    requires sep != []
    ensures Join(Split(s, sep), sep) == s
    decreases |s|
  {
    match IndexOf(s, sep)
    case None =>
    case Some(i) =>
      IndexOfFirst(s, sep);
      var head, rest := s[..i], s[i + |sep|..];
      SplitJoins(rest, sep);
      var r := Split(s, sep);
      assert r[0] == head && r[1..] == Split(rest, sep);
      assert Join(r, sep) == head + sep + Join(r[1..], sep);
      assert s[i..i + |sep|] == sep;
      SliceThree(s, i, i + |sep|);
  }

  lemma SliceThree(s: string, i: nat, j: nat)
    requires i <= j <= |s|
    ensures s == s[..i] + s[i..j] + s[j..]
  {
  }

  /** No piece of `s.split(sep)` holds the separator. */
  lemma {:induction false} SplitPiecesClean(s: string, sep: string)
    requires sep != []
    ensures forall k | 0 <= k < |Split(s, sep)| :: !Contains(Split(s, sep)[k], sep)
    decreases |s|
  {
    IndexOfFirst(s, sep);
    match IndexOf(s, sep)
    case None =>
      BeforeFirstOccurrence(s, sep, |s|);
      assert s[..|s|] == s;
    case Some(i) =>
      var rest := s[i + |sep|..];
      var r := Split(s, sep);
      SplitPiecesClean(rest, sep);
      BeforeFirstOccurrence(s, sep, i);
      assert r[0] == s[..i] && r[1..] == Split(rest, sep);
      assert forall k | 1 <= k < |r| :: r[k] == Split(rest, sep)[k - 1];
  }

  /** A one-character pattern is contained exactly when it is an element. */
  lemma ContainsChar(s: string, c: char)
    ensures Contains(s, [c]) <==> c in s
  {
    if c in s {
      var k :| 0 <= k < |s| && s[k] == c;
      assert s[k..k + 1] == [c];
      assert OccursAt(s, [c], k);
    }
    if Contains(s, [c]) {
      var k: nat :| k <= |s| && OccursAt(s, [c], k);
      assert s[k..k + 1][0] == s[k];
    }
  }

  /** `s.startsWith(p)` */
  predicate StartsWith(s: string, p: string) {
    |p| <= |s| && s[..|p|] == p
  }

  /** ASCII case folding of `toLowerCase`; letters outside A-Z are kept. */
  function LowerChar(c: char): (d: char)
    ensures ('A' <= c <= 'Z') ==> 'a' <= d <= 'z'
    ensures !('A' <= c <= 'Z') ==> d == c
  {
    if 'A' <= c <= 'Z' then (c as int - 'A' as int + 'a' as int) as char else c
  }

  function ToLower(s: string): (r: string)
    ensures |r| == |s|
    ensures forall i | 0 <= i < |s| :: r[i] == LowerChar(s[i])
  {
    if s == [] then [] else [LowerChar(s[0])] + ToLower(s[1..])
  }

  predicate IsDigit(c: char) {
    '0' <= c <= '9'
  }

  /** The decimal rendering of a natural number, as JavaScript's template literals print it. */
  function NatToString(n: nat): (r: string)
    ensures |r| >= 1
    ensures forall i | 0 <= i < |r| :: IsDigit(r[i])
  {
    if n < 10 then [(n + '0' as int) as char]
    else NatToString(n / 10) + [(n % 10 + '0' as int) as char]
  }
}
