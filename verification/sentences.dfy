/** Cutting an answer into sentences for speech synthesis
    (backend/voice_console/voice_filters.py, from the normalised text onward). */
module Sentences {
  import opened Sequences

  ghost predicate SingleSpaced(s: string) {
    forall i :: 0 <= i < |s| - 1 ==> s[i] != ' ' || s[i + 1] != ' '
  }

  ghost predicate Trimmed(s: string) {
    s != "" ==> s[0] != ' ' && s[|s| - 1] != ' '
  }

  function Keep(c: char): string { if c == ' ' then "" else [c] }

  /** The text without its blanks. */
  function NonSpace(s: string): string {
    if s == "" then "" else Keep(s[0]) + NonSpace(s[1..])
  }

  lemma {:induction false} NonSpaceConcat(a: string, b: string)
    ensures NonSpace(a + b) == NonSpace(a) + NonSpace(b)
  {
    if a == "" {
      assert a + b == b;
    } else {
      var k, x, y := Keep(a[0]), NonSpace(a[1..]), NonSpace(b);
      calc {
        NonSpace(a + b);
        { assert (a + b)[1..] == a[1..] + b; }
        k + NonSpace(a[1..] + b);
        { NonSpaceConcat(a[1..], b); }
        k + (x + y);
        k + x + y;
      }
    }
  }

  function Strip(s: string): string {
    if s == "" then s
    else if s[0] == ' ' then Strip(s[1..])
    else if s[|s| - 1] == ' ' then Strip(s[..|s| - 1])
    else s
  }

  /** A word is all of it kept; with NonSpaceConcat this says what NonSpace is. */
  lemma {:induction false} NonSpaceOfWord(s: string)
    requires ' ' !in s
    ensures NonSpace(s) == s && NonSpace(" ") == ""
  {
    if s != "" {
      NonSpaceOfWord(s[1..]);
    }
    assert " "[1..] == "";
  }

  /** What is left of a trimmed, single-spaced sentence after a piece of length n. */
  ghost function After(s: string, n: nat): string
    requires n < |s|
  {
    if s[n] == ' ' then s[n + 1..] else s[n..]
  }

  lemma CutKeeps(s: string, n: nat)
    requires n < |s|
    ensures NonSpace(s) == NonSpace(s[..n]) + NonSpace(After(s, n))
  {
    var head, tail := s[..n], s[n..];
    calc {
      NonSpace(s);
      { assert s == head + tail; }
      NonSpace(head + tail);
      { NonSpaceConcat(head, tail); }
      NonSpace(head) + NonSpace(tail);
      { DropBlank(tail); }
      NonSpace(head) + NonSpace(After(tail, 0));
      { assert After(s, n) == After(tail, 0); }
      NonSpace(head) + NonSpace(After(s, n));
    }
  }

  lemma DropBlank(tail: string)
    requires tail != ""
    ensures NonSpace(After(tail, 0)) == NonSpace(tail)
  {
    if tail[0] == ' ' {
      assert NonSpace(tail) == "" + NonSpace(tail[1..]);
    } else {
      assert tail[0..] == tail;
    }
  }

  // ---- Sentence boundaries -------------------------------------------------

  predicate SentenceEnd(s: string, i: nat)
    requires i < |s|
  {
    i > 0 && s[i] == ' ' && s[i - 1] in ".!?"
  }

  ghost predicate NoSentenceEnd(s: string) {
    forall i :: 0 <= i < |s| ==> !SentenceEnd(s, i)
  }

  function FirstEnd(s: string, i: nat): (end: nat)
    requires i <= |s|
    ensures i <= end <= |s| && (end < |s| ==> SentenceEnd(s, end))
    ensures forall j :: i <= j < end ==> !SentenceEnd(s, j)
    decreases |s| - i
  {
    if i == |s| || SentenceEnd(s, i) then i else FirstEnd(s, i + 1)
  }

  /** re.split on the blank that follows a full stop, exclamation or question mark. */
  function Rough(s: string): (parts: seq<string>)
    decreases |s|
  {
    var end := FirstEnd(s, 0);
    if end == |s| then [s] else [s[..end]] + Rough(s[end + 1..])
  }

  function Concat(parts: seq<string>): string {
    if parts == [] then "" else parts[0] + Concat(parts[1..])
  }

  lemma {:induction false} ConcatAppend(a: seq<string>, b: seq<string>)
    ensures Concat(a + b) == Concat(a) + Concat(b)
  {
    if a == [] {
      assert a + b == b;
    } else {
      ConcatAppend(a[1..], b);
      assert (a + b)[1..] == a[1..] + b;
    }
  }

  lemma ConcatOne(part: string)
    ensures Concat([part]) == part
  {
    assert [part][1..] == [];
  }

  ghost predicate Parts(parts: seq<string>) {
    forall k :: 0 <= k < |parts| ==> SingleSpaced(parts[k]) && NoSentenceEnd(parts[k])
  }

  /** Splitting drops only blanks, and no part runs past a sentence end. */
  lemma {:induction false} RoughSpec(s: string)
    requires SingleSpaced(s)
    ensures NonSpace(Concat(Rough(s))) == NonSpace(s)
    ensures Parts(Rough(s))
    decreases |s|
  {
    var end := FirstEnd(s, 0);
    if end < |s| {
      var head, tail := s[..end], s[end + 1..];
      SliceOfSentence(s, 0, end);
      SliceOfSentence(s, end + 1, |s|);
      RoughSpec(tail);
      assert NoSentenceEnd(head) by {
        assert forall i :: 0 <= i < end ==> SentenceEnd(head, i) == SentenceEnd(s, i);
      }
      RoughKeeps(s, end);
    } else {
      ConcatOne(s);
    }
  }

  /** Joining the parts with blanks gives the text back. */
  function Joined(parts: seq<string>): string {
    if parts == [] then "" else if |parts| == 1 then parts[0] else parts[0] + " " + Joined(parts[1..])
  }

  /** The text is split at single blanks, and only at those that follow a full stop, exclamation
      or question mark. */
  lemma {:induction false} RoughJoins(s: string)
    ensures Joined(Rough(s)) == s && Rough(s) != []
    ensures forall k :: 0 <= k < |Rough(s)| - 1 ==>
              Rough(s)[k] != "" && Rough(s)[k][|Rough(s)[k]| - 1] in {'.', '!', '?'}
    decreases |s|
  {
    var end := FirstEnd(s, 0);
    if end < |s| {
      var rest := Rough(s[end + 1..]);
      RoughJoins(s[end + 1..]);
      assert ([s[..end]] + rest)[1..] == rest;
      assert s == s[..end] + " " + s[end + 1..];
    }
  }

  lemma RoughKeeps(s: string, end: nat)
    requires end == FirstEnd(s, 0) < |s|
    requires NonSpace(Concat(Rough(s[end + 1..]))) == NonSpace(s[end + 1..])
    ensures NonSpace(Concat(Rough(s))) == NonSpace(s)
  {
    var head, rest := s[..end], Rough(s[end + 1..]);
    calc {
      NonSpace(Concat([head] + rest));
      { assert ([head] + rest)[1..] == rest; }
      NonSpace(head + Concat(rest));
      { NonSpaceConcat(head, Concat(rest)); }
      NonSpace(head) + NonSpace(After(s, end));
      { CutKeeps(s, end); }
      NonSpace(s);
    }
  }

  lemma {:induction false} StripKeeps(s: string)
    ensures Trimmed(Strip(s)) && NonSpace(Strip(s)) == NonSpace(s)
    decreases |s|
  {
    if s == "" {
    } else if s[0] == ' ' {
      StripKeeps(s[1..]);
    } else if s[|s| - 1] == ' ' {
      StripKeeps(s[..|s| - 1]);
      var init, blank := s[..|s| - 1], [s[|s| - 1]];
      assert s == init + blank;
      NonSpaceConcat(init, blank);
      assert NonSpace(blank) == "";
    }
  }

  /** Stripping keeps a part single-spaced and within one sentence. */
  lemma {:induction false} StripIsSlice(s: string)
    requires SingleSpaced(s) && NoSentenceEnd(s)
    ensures SingleSpaced(Strip(s)) && NoSentenceEnd(Strip(s))
    decreases |s|
  {
    if s == "" {
    } else if s[0] == ' ' {
      SliceOfSentence(s, 1, |s|);
      assert s[1..|s|] == s[1..];
      StripIsSlice(s[1..]);
    } else if s[|s| - 1] == ' ' {
      SliceOfSentence(s, 0, |s| - 1);
      StripIsSlice(s[..|s| - 1]);
    }
  }

  lemma SliceOfSentence(s: string, lo: nat, hi: nat)
    requires lo <= hi <= |s|
    ensures SingleSpaced(s) ==> SingleSpaced(s[lo..hi])
    ensures NoSentenceEnd(s) ==> NoSentenceEnd(s[lo..hi])
  {
    assert forall i :: 1 <= i < hi - lo ==> SentenceEnd(s[lo..hi], i) == SentenceEnd(s, lo + i);
  }

  // ---- Cutting one sentence ------------------------------------------------

  /** n is the best place to cut: the last blank that leaves a piece between half
      the cap and the cap, or the cap itself when there is no such blank. */
  ghost predicate GoodCut(s: string, cap: nat, n: nat)
    requires 1 <= cap < |s|
  {
    && cap / 2 <= n <= cap
    && (s[n] == ' ' || n == cap)
    && forall i :: cap / 2 <= i <= cap && (n < i || s[n] != ' ') ==> s[i] != ' '
  }

  lemma GoodCutUnique(s: string, cap: nat, m: nat, n: nat)
    requires 1 <= cap < |s| && GoodCut(s, cap, m) && GoodCut(s, cap, n)
    ensures m == n
  {
  }

  function LastBlank(s: string, hi: nat): (i: int)
    requires hi <= |s|
    ensures -1 <= i < hi && (i >= 0 ==> s[i] == ' ')
    ensures forall j :: i < j < hi ==> s[j] != ' '
  {
    if hi == 0 then -1 else if s[hi - 1] == ' ' then hi - 1 else LastBlank(s, hi - 1)
  }

  ghost function BestCut(s: string, cap: nat): (n: nat)
    requires 1 <= cap < |s|
    ensures GoodCut(s, cap, n)
  {
    var b := LastBlank(s, cap + 1);
    assert GoodCut(s, cap, if b < cap / 2 then cap else b);
    var n :| GoodCut(s, cap, n);
    n
  }

  /** A cut of a trimmed, single-spaced sentence is never empty and needs no stripping. */
  lemma CutIsClean(s: string, cap: nat, n: nat)
    requires 1 <= cap < |s| && Trimmed(s) && SingleSpaced(s) && GoodCut(s, cap, n)
    ensures n >= 1 && Trimmed(s[..n]) && Trimmed(After(s, n)) && SingleSpaced(After(s, n))
    ensures Strip(s[..n]) == s[..n] && Strip(s[n..]) == After(s, n)
  {
    assert s[n - 1] != ' ';
    SliceOfSentence(s, n, |s|);
    SliceOfSentence(s, n + 1, |s|);
    if s[n] == ' ' {
      assert s[n..][1..] == s[n + 1..];
      assert s[n + 1] != ' ';
    }
  }

  /** The pieces of one sentence, each cut at its best place. */
  ghost function Pieces(s: string, cap: nat): seq<string>
    requires cap >= 1 && Trimmed(s) && SingleSpaced(s)
    decreases |s|
  {
    if s == "" then []
    else if |s| <= cap then [s]
    else
      var n := BestCut(s, cap);
      CutIsClean(s, cap, n);
      [s[..n]] + Pieces(After(s, n), cap)
  }

  /** Cutting loses no character of the sentence except blanks. */
  lemma {:induction false} PiecesKeep(s: string, cap: nat)
    requires cap >= 1 && Trimmed(s) && SingleSpaced(s)
    ensures NonSpace(Concat(Pieces(s, cap))) == NonSpace(s)
    decreases |s|
  {
    if s == "" {
    } else if |s| <= cap {
      ConcatOne(s);
    } else {
      var n := BestCut(s, cap);
      CutIsClean(s, cap, n);
      var rest := Pieces(After(s, n), cap);
      calc {
        NonSpace(Concat([s[..n]] + rest));
        { assert ([s[..n]] + rest)[1..] == rest; }
        NonSpace(s[..n] + Concat(rest));
        { NonSpaceConcat(s[..n], Concat(rest)); PiecesKeep(After(s, n), cap); }
        NonSpace(s[..n]) + NonSpace(After(s, n));
        { CutKeeps(s, n); }
        NonSpace(s);
      }
    }
  }

  /** A spoken chunk: non-empty, within the cap, trimmed, and inside one sentence. */
  ghost predicate Chunk(c: string, cap: nat) {
    1 <= |c| <= cap && Trimmed(c) && NoSentenceEnd(c)
  }

  ghost predicate Chunks(cs: seq<string>, cap: nat) {
    forall k :: 0 <= k < |cs| ==> Chunk(cs[k], cap)
  }

  /** Every piece is a chunk, and every piece cut inside the loop is at least half the cap. */
  lemma {:induction false} PiecesSpec(s: string, cap: nat)
    requires cap >= 1 && Trimmed(s) && SingleSpaced(s) && NoSentenceEnd(s)
    ensures Chunks(Pieces(s, cap), cap)
    ensures forall k :: 0 <= k < |Pieces(s, cap)| - 1 ==> |Pieces(s, cap)[k]| >= cap / 2
    decreases |s|
  {
    if |s| > cap {
      var n := BestCut(s, cap);
      CutIsClean(s, cap, n);
      SliceOfSentence(s, 0, n);
      SliceOfSentence(s, n, |s|);
      SliceOfSentence(s, n + 1, |s|);
      assert s[n..|s|] == s[n..] && s[n + 1..|s|] == s[n + 1..];
      PiecesSpec(After(s, n), cap);
    }
  }

  // ---- The whole text ------------------------------------------------------

  ghost function AllPieces(parts: seq<string>, cap: nat): seq<string>
    requires cap >= 1 && Parts(parts)
  {
    if parts == [] then []
    else
      StripKeeps(parts[|parts| - 1]);
      StripIsSlice(parts[|parts| - 1]);
      AllPieces(parts[..|parts| - 1], cap) + Pieces(Strip(parts[|parts| - 1]), cap)
  }

  /** The chunks of a text carry all its non-blank characters, in order. */
  lemma {:induction false} AllPiecesKeep(parts: seq<string>, cap: nat)
    requires cap >= 1 && Parts(parts)
    ensures NonSpace(Concat(AllPieces(parts, cap))) == NonSpace(Concat(parts))
  {
    if parts != [] {
      var init, last := parts[..|parts| - 1], parts[|parts| - 1];
      var a, b := AllPieces(init, cap), (StripKeeps(last); StripIsSlice(last); Pieces(Strip(last), cap));
      calc {
        NonSpace(Concat(a + b));
        { ConcatAppend(a, b); NonSpaceConcat(Concat(a), Concat(b)); }
        NonSpace(Concat(a)) + NonSpace(Concat(b));
        { StripIsSlice(last); PiecesKeep(Strip(last), cap); StripKeeps(last); AllPiecesKeep(init, cap); }
        NonSpace(Concat(init)) + NonSpace(last);
        { NonSpaceConcat(Concat(init), last); }
        NonSpace(Concat(init) + last);
        { ConcatOne(last); }
        NonSpace(Concat(init) + Concat([last]));
        { ConcatAppend(init, [last]); assert init + [last] == parts; }
        NonSpace(Concat(parts));
      }
    }
  }

  lemma {:induction false} AllPiecesSpec(parts: seq<string>, cap: nat)
    requires cap >= 1 && Parts(parts)
    ensures Chunks(AllPieces(parts, cap), cap)
  {
    if parts != [] {
      var last := parts[|parts| - 1];
      AllPiecesSpec(parts[..|parts| - 1], cap);
      StripIsSlice(last);
      StripKeeps(last);
      PiecesSpec(Strip(last), cap);
    }
  }

  /** The loop's choice of cut, with the stripping it does, is one step of Pieces. */
  lemma CutStep(s: string, cap: nat, n: nat)
    requires 1 <= cap < |s| && Trimmed(s) && SingleSpaced(s) && GoodCut(s, cap, n)
    ensures n >= 1 && Trimmed(Strip(s[n..])) && SingleSpaced(Strip(s[n..])) && |Strip(s[n..])| < |s|
    ensures Pieces(s, cap) == [Strip(s[..n])] + Pieces(Strip(s[n..]), cap)
  {
    GoodCutUnique(s, cap, n, BestCut(s, cap));
    CutIsClean(s, cap, n);
  }

  method CutSentence(sentence: string, cap: nat) returns (pieces: seq<string>)
    requires cap >= 1 && SingleSpaced(sentence) && NoSentenceEnd(sentence)
    ensures Trimmed(Strip(sentence)) && SingleSpaced(Strip(sentence))
    ensures pieces == Pieces(Strip(sentence), cap)
  {
    pieces := [];
    StripKeeps(sentence);
    StripIsSlice(sentence);
    var remaining := Strip(sentence);
    ghost var all := Pieces(remaining, cap);
    while |remaining| > cap
      invariant Trimmed(remaining) && SingleSpaced(remaining)
      invariant pieces + Pieces(remaining, cap) == all
      decreases |remaining|
    {
      var splitAt := LastBlank(remaining, cap + 1);
      if splitAt < cap / 2 {
        splitAt := cap;
      }
      CutStep(remaining, cap, splitAt);
      var piece, rest := Strip(remaining[..splitAt]), Strip(remaining[splitAt..]);
      Assoc(pieces, [piece], Pieces(rest, cap));
      pieces, remaining := pieces + [piece], rest;
    }
    if remaining != "" {
      pieces := pieces + [remaining];
    }
  }

  function Truncate(text: string, totalCap: nat): (kept: string)
    ensures kept <= text && |kept| == if |text| < totalCap then |text| else totalCap
  {
    if totalCap < |text| then text[..totalCap] else text
  }

  lemma AllPiecesNext(parts: seq<string>, i: nat, cap: nat)
    requires cap >= 1 && Parts(parts) && i < |parts|
    ensures Trimmed(Strip(parts[i])) && SingleSpaced(Strip(parts[i]))
    ensures AllPieces(parts[..i + 1], cap) == AllPieces(parts[..i], cap) + Pieces(Strip(parts[i]), cap)
  {
    assert parts[..i + 1][..i] == parts[..i];
    StripKeeps(parts[i]);
    StripIsSlice(parts[i]);
  }

  /** The outer loop: one rough part after the other. */
  method CutAll(rough: seq<string>, sentenceCap: nat) returns (chunks: seq<string>)
    requires Parts(rough) && sentenceCap >= 1
    ensures chunks == AllPieces(rough, sentenceCap)
  {
    chunks := [];
    for i := 0 to |rough|
      invariant chunks == AllPieces(rough[..i], sentenceCap)
    {
      var pieces := CutSentence(rough[i], sentenceCap);
      AllPiecesNext(rough, i, sentenceCap);
      chunks := chunks + pieces;
    }
    assert rough[..|rough|] == rough;
  }

  /** No chunk runs past the end of a sentence, spelled out. */
  lemma ChunksStayInside(chunks: seq<string>, cap: nat)
    requires Chunks(chunks, cap)
    ensures forall k, i :: 0 <= k < |chunks| && 0 < i < |chunks[k]| && chunks[k][i] == ' ' ==>
              chunks[k][i - 1] !in {'.', '!', '?'}
  {
    forall k, i | 0 <= k < |chunks| && 0 < i < |chunks[k]| && chunks[k][i] == ' '
      ensures chunks[k][i - 1] !in {'.', '!', '?'}
    {
      assert Chunk(chunks[k], cap) && !SentenceEnd(chunks[k], i);
    }
  }

  method PrepareSentences(text: string, totalCap: nat, sentenceCap: nat) returns (chunks: seq<string>)
    requires SingleSpaced(text) && sentenceCap >= 1
    ensures Parts(Rough(Truncate(text, totalCap)))
    ensures chunks == AllPieces(Rough(Truncate(text, totalCap)), sentenceCap)
    ensures NonSpace(Concat(chunks)) == NonSpace(Truncate(text, totalCap))
    ensures Chunks(chunks, sentenceCap)
    ensures forall k, i :: 0 <= k < |chunks| && 0 < i < |chunks[k]| && chunks[k][i] == ' ' ==>
              chunks[k][i - 1] !in {'.', '!', '?'}
  {
    var kept := Truncate(text, totalCap);
    SliceOfSentence(text, 0, |kept|);
    RoughSpec(kept);
    AllPiecesKeep(Rough(kept), sentenceCap);
    AllPiecesSpec(Rough(kept), sentenceCap);
    if kept == "" {
      return [];
    }
    chunks := CutAll(Rough(kept), sentenceCap);
    ChunksStayInside(chunks, sentenceCap);
  }
}
