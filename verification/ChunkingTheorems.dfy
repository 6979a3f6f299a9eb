/** What chunking keeps of the document's text. */
module ChunkingTheorems {
  import opened Prelude
  import opened Texts
  import opened Collecting
  import opened Chunking

  /** The text without its white space. */
  function Erase(s: Text): Text {
    if s == [] then [] else Erase(s[..|s| - 1]) + if IsSpaceCode(s[|s| - 1]) then [] else [s[|s| - 1]]
  }

  function Concat(texts: seq<Text>): Text {
    if texts == [] then [] else Concat(texts[..|texts| - 1]) + texts[|texts| - 1]
  }

  lemma {:induction false} EraseConcat(a: Text, b: Text)
    ensures Erase(a + b) == Erase(a) + Erase(b)
  {
    if b == [] {
      assert a + b == a;
    } else {
      var init := b[..|b| - 1];
      EraseConcat(a, init);
      assert (a + b)[..|a + b| - 1] == a + init;
      Regroup(Erase(a), Erase(init), if IsSpaceCode(b[|b| - 1]) then [] else [b[|b| - 1]]);
    }
  }

  lemma {:induction false} EraseSpace(s: Text)
    requires AllSpace(s, IsSpaceCode)
    ensures Erase(s) == []
  {
    if s != [] {
      EraseSpace(s[..|s| - 1]);
    }
  }

  lemma EraseTrim(s: Text)
    ensures Erase(Trim(s, IsSpaceCode)) == Erase(s)
  {
    var before, after := TrimSplits(s, IsSpaceCode);
    var t := Trim(s, IsSpaceCode);
    EraseConcat(before + t, after);
    EraseConcat(before, t);
    EraseSpace(before);
    EraseSpace(after);
  }

  lemma ConcatOne(t: Text)
    ensures Concat([t]) == t
  {
    assert [t][..0] == [];
  }

  lemma {:induction false} ConcatConcat(a: seq<Text>, b: seq<Text>)
    ensures Concat(a + b) == Concat(a) + Concat(b)
  {
    if b == [] {
      assert a + b == a;
    } else {
      var init := b[..|b| - 1];
      ConcatConcat(a, init);
      assert (a + b)[..|a + b| - 1] == a + init;
      Regroup(Concat(a), Concat(init), b[|b| - 1]);
    }
  }

  /** Trimming every text and dropping the empty ones keeps what is not white space. */
  lemma {:induction false} TrimmedTextKept(texts: seq<Text>)
    ensures Erase(Concat(Collect(texts, TrimNonEmpty))) == Erase(Concat(texts))
  {
    if texts != [] {
      var init, last := texts[..|texts| - 1], texts[|texts| - 1];
      var kept := Collect(init, TrimNonEmpty);
      TrimmedTextKept(init);
      EraseTrim(last);
      EraseConcat(Concat(init), last);
      if TrimNonEmpty(last).Some? {
        ConcatConcat(kept, [Trim(last, IsSpaceCode)]);
        ConcatOne(Trim(last, IsSpaceCode));
        EraseConcat(Concat(kept), Trim(last, IsSpaceCode));
      } else {
        assert kept + [] == kept;
      }
    }
  }

  // ---------------------------------------------------------------- Paragraphs

  lemma {:induction false} SkippedIsSpace(s: Text)
    ensures Erase(SkipNewlines(s)) == Erase(s)
  {
    if s != [] && s[0] == NEWLINE {
      SkippedIsSpace(s[1..]);
      SplitAt(s, 1);
      EraseConcat(s[..1], s[1..]);
      EraseSpace(s[..1]);
    }
  }

  lemma {:induction false} SplitKept(s: Text)
    ensures Erase(Concat(Split(s))) == Erase(s)
    decreases |s|
  {
    var i := BreakAt(s);
    if i == |s| {
      ConcatOne(s);
    } else {
      var rest := SkipNewlines(s[i + 2..]);
      calc {
        Erase(Concat(Split(s)));
        { FirstTextErased(s[..i], Split(rest)); }
        Erase(s[..i]) + Erase(Concat(Split(rest)));
        { SplitKept(rest); }
        Erase(s[..i]) + Erase(rest);
        { SkippedIsSpace(s[i + 2..]); }
        Erase(s[..i]) + Erase(s[i + 2..]);
        { BreakIsSpace(s, i); }
        Erase(s);
      }
    }
  }

  lemma FirstTextErased(first: Text, texts: seq<Text>)
    ensures Erase(Concat([first] + texts)) == Erase(first) + Erase(Concat(texts))
  {
    ConcatConcat([first], texts);
    ConcatOne(first);
    EraseConcat(first, Concat(texts));
  }

  lemma BreakIsSpace(s: Text, i: nat)
    requires i + 1 < |s| && s[i] == NEWLINE && s[i + 1] == NEWLINE
    ensures Erase(s) == Erase(s[..i]) + Erase(s[i + 2..])
  {
    assert s == s[..i] + s[i..i + 2] + s[i + 2..];
    EraseMiddle(s[..i], s[i..i + 2], s[i + 2..]);
  }

  lemma EraseMiddle(before: Text, space: Text, after: Text)
    requires AllSpace(space, IsSpaceCode)
    ensures Erase(before + space + after) == Erase(before) + Erase(after)
  {
    EraseConcat(before + space, after);
    EraseConcat(before, space);
    EraseSpace(space);
  }

  lemma {:induction false} BeforeBreak(s: Text)
    ensures BreakAt(s[..BreakAt(s)]) == BreakAt(s)
  {
    var i := BreakAt(s);
    if 0 < i < |s| {
      BeforeBreak(s[1..]);
      assert s[..i][1..] == s[1..][..i - 1];
    } else {
      assert i == |s| ==> s[..i] == s;
    }
  }

  lemma {:induction false} BreakAtIff(s: Text)
    ensures BreakAt(s) == |s| <==> OneLineApart(s)
  {
    if |s| >= 2 {
      BreakAtIff(s[1..]);
      if OneLineApart(s) {
        forall i | 0 <= i < |s[1..]| - 1
          ensures !(s[1..][i] == NEWLINE && s[1..][i + 1] == NEWLINE)
        {
          assert s[1..][i] == s[i + 1];
        }
      } else {
        var i :| 0 <= i < |s| - 1 && s[i] == NEWLINE && s[i + 1] == NEWLINE;
        if i > 0 {
          assert s[1..][i - 1] == NEWLINE && s[1..][i] == NEWLINE;
        }
      }
    }
  }

  /** No two newlines stand side by side. */
  predicate OneLineApart(s: Text) {
    forall i :: 0 <= i < |s| - 1 ==> !(s[i] == NEWLINE && s[i + 1] == NEWLINE)
  }

  lemma {:induction false} SplitHasNoBreak(s: Text, t: Text)
    requires t in Split(s)
    ensures OneLineApart(t)
    decreases |s|
  {
    var i := BreakAt(s);
    if i < |s| && t != s[..i] {
      SplitHasNoBreak(SkipNewlines(s[i + 2..]), t);
    } else {
      BeforeBreak(s);
      BreakAtIff(s[..i]);
      assert i == |s| ==> s[..i] == s;
    }
  }

  /** No paragraph has two newlines in a row. */
  lemma NoBreakInside(content: Text, paragraph: Text)
    requires paragraph in Paragraphs(content)
    ensures OneLineApart(paragraph)
  {
    var s := CollectFrom(Split(content), TrimNonEmpty, paragraph);
    SplitHasNoBreak(content, s);
    var before, after := TrimSplits(s, IsSpaceCode);
    forall i | 0 <= i < |paragraph| - 1
      ensures !(paragraph[i] == NEWLINE && paragraph[i + 1] == NEWLINE)
    {
      assert paragraph[i] == s[|before| + i] && paragraph[i + 1] == s[|before| + i + 1];
    }
  }

  /** The paragraphs hold all of the document but white space. */
  lemma ParagraphsKeepText(content: Text)
    ensures Erase(Concat(Paragraphs(content))) == Erase(content)
  {
    TrimmedTextKept(Split(content));
    SplitKept(content);
  }

  predicate Proper(s: Text) {
    s != [] && Trimmed(s, IsSpaceCode)
  }

  lemma CollectedIsProper(texts: seq<Text>, t: Text)
    requires t in Collect(texts, TrimNonEmpty)
    ensures Proper(t)
  {
    var s := CollectFrom(texts, TrimNonEmpty, t);
    TrimIsTrimmed(s, IsSpaceCode);
  }

  // ---------------------------------------------------------------------- Pieces

  lemma {:induction false} SlicesJoin(s: Text, max: nat)
    requires max >= 1
    ensures Concat(Slices(s, max)) == s
  {
    if s == [] {
    } else if |s| <= max {
      ConcatOne(s);
    } else {
      SlicesJoin(s[max..], max);
      ConcatConcat([s[..max]], Slices(s[max..], max));
      ConcatOne(s[..max]);
      SplitAt(s, max);
    }
  }

  /** Cutting a paragraph to size loses nothing but white space. */
  lemma PiecesKeepText(value: Text, max: nat)
    requires max >= 1
    ensures Erase(Concat(Pieces(value, max))) == Erase(value)
  {
    if |value| <= max {
      ConcatOne(value);
    } else {
      TrimmedTextKept(Slices(value, max));
      SlicesJoin(value, max);
    }
  }

  lemma {:induction false} SliceFits(s: Text, max: nat, t: Text)
    requires max >= 1 && t in Slices(s, max)
    ensures |t| <= max
  {
    if |s| > max && t != s[..max] {
      SliceFits(s[max..], max, t);
    }
  }

  lemma TrimShortens(s: Text)
    ensures |Trim(s, IsSpaceCode)| <= |s|
  {
  }

  /** Every piece of a trimmed paragraph is trimmed, not empty and within the size. */
  lemma PieceIsProper(value: Text, max: nat, piece: Text)
    requires max >= 1 && Proper(value) && piece in Pieces(value, max)
    ensures Proper(piece) && |piece| <= max
  {
    if |value| > max {
      CollectedIsProper(Slices(value, max), piece);
      var slice := CollectFrom(Slices(value, max), TrimNonEmpty, piece);
      SliceFits(value, max, slice);
      TrimShortens(slice);
    }
  }

  // ---------------------------------------------------------------------- Chunks

  function Contents(chunks: seq<Chunk>): (r: seq<Text>)
    ensures |r| == |chunks|
    ensures forall i :: 0 <= i < |r| ==> r[i] == chunks[i].content
  {
    seq(|chunks|, i requires 0 <= i < |chunks| => chunks[i].content)
  }

  function BodyOf(s: Text): Option<Text> {
    if IsHeading(s) then None else Some(s)
  }

  /** The paragraphs that are not headings. */
  function Bodies(paragraphs: seq<Text>): seq<Text> {
    Collect(paragraphs, BodyOf)
  }

  lemma {:induction false} NumberContents(parent: Parent, from: nat, heading: Option<Text>, pieces: seq<Text>)
    ensures Contents(Number(parent, from, heading, pieces)) == pieces
  {
    if pieces != [] {
      var init := pieces[..|pieces| - 1];
      NumberContents(parent, from, heading, init);
      assert Contents(Number(parent, from, heading, pieces))
          == Contents(Number(parent, from, heading, init)) + [pieces[|pieces| - 1]];
    }
  }

  lemma ContentsConcat(a: seq<Chunk>, b: seq<Chunk>)
    ensures Contents(a + b) == Contents(a) + Contents(b)
  {
  }

  /** The chunks hold the same text as the paragraphs that are not headings. */
  lemma {:induction false} ChunksKeepText(parent: Parent, paragraphs: seq<Text>, max: nat)
    requires max >= 1
    ensures Erase(Concat(Contents(Chunks(parent, paragraphs, max)))) == Erase(Concat(Bodies(paragraphs)))
  {
    if paragraphs != [] {
      var init, last := paragraphs[..|paragraphs| - 1], paragraphs[|paragraphs| - 1];
      ChunksKeepText(parent, init, max);
      if IsHeading(last) {
        assert Bodies(init) + [] == Bodies(init);
      } else {
        var before := Chunks(parent, init, max);
        var added := Number(parent, |before|, LastHeading(init), Pieces(last, max));
        NumberContents(parent, |before|, LastHeading(init), Pieces(last, max));
        ContentsConcat(before, added);
        ConcatConcat(Contents(before), Pieces(last, max));
        EraseConcat(Concat(Contents(before)), Concat(Pieces(last, max)));
        PiecesKeepText(last, max);
        ConcatConcat(Bodies(init), [last]);
        ConcatOne(last);
        EraseConcat(Concat(Bodies(init)), last);
      }
    }
  }

  lemma {:induction false} NumberAt(parent: Parent, from: nat, heading: Option<Text>, pieces: seq<Text>, i: nat)
    requires i < |pieces|
    ensures Number(parent, from, heading, pieces)[i] == ChunkOf(parent, from + i, heading, pieces[i])
  {
    if i < |pieces| - 1 {
      NumberAt(parent, from, heading, pieces[..|pieces| - 1], i);
    }
  }

  /** The paragraph chunk `i` was cut from, and which of its pieces it is. */
  lemma {:induction false} ChunkComesFrom(parent: Parent, paragraphs: seq<Text>, max: nat, i: nat) returns (p: nat)
    requires max >= 1 && i < |Chunks(parent, paragraphs, max)|
    ensures p < |paragraphs| && !IsHeading(paragraphs[p])
    ensures var c := Chunks(parent, paragraphs, max)[i];
            c.content in Pieces(paragraphs[p], max)
            && c == ChunkOf(parent, i, LastHeading(paragraphs[..p]), c.content)
  {
    var init, last := paragraphs[..|paragraphs| - 1], paragraphs[|paragraphs| - 1];
    var before := Chunks(parent, init, max);
    if i < |before| {
      p := ChunkComesFrom(parent, init, max, i);
      assert init[..p] == paragraphs[..p];
    } else {
      p := |init|;
      NumberAt(parent, |before|, LastHeading(init), Pieces(last, max), i - |before|);
    }
  }

  lemma {:induction false} NoHeadingIff(paragraphs: seq<Text>)
    ensures LastHeading(paragraphs).None? <==> forall s :: s in paragraphs ==> !IsHeading(s)
  {
    if paragraphs != [] {
      var init, last := paragraphs[..|paragraphs| - 1], paragraphs[|paragraphs| - 1];
      NoHeadingIff(init);
      assert paragraphs == init + [last];
    }
  }

  /** The heading comes from the last heading paragraph. */
  lemma {:induction false} LastHeadingIsLast(paragraphs: seq<Text>) returns (q: nat)
    requires LastHeading(paragraphs).Some?
    ensures q < |paragraphs| && IsHeading(paragraphs[q])
    ensures LastHeading(paragraphs) == Some(NormalizeHeading(paragraphs[q]))
    ensures forall k :: q < k < |paragraphs| ==> !IsHeading(paragraphs[k])
  {
    var last := |paragraphs| - 1;
    if IsHeading(paragraphs[last]) {
      q := last;
    } else {
      q := LastHeadingIsLast(paragraphs[..last]);
      forall k | q < k < |paragraphs|
        ensures !IsHeading(paragraphs[k])
      {
        if k < last {
          assert paragraphs[..last][k] == paragraphs[k];
        }
      }
    }
  }

  /** A chunk of a document: trimmed, not empty, within the size, enabled, at its index,
      under the last heading before its paragraph. */
  lemma ChunkIsProper(parent: Parent, content: Text, max: nat, i: nat) returns (p: nat)
    requires max >= 1 && i < |Chunks(parent, Paragraphs(content), max)|
    ensures var c := Chunks(parent, Paragraphs(content), max)[i];
            && Proper(c.content) && |c.content| <= max && c.enabled && c.chunkIndex == i
            && c.tokenCount == EstimateTokenCount(c.content)
            && p < |Paragraphs(content)| && !IsHeading(Paragraphs(content)[p])
            && c.heading == LastHeading(Paragraphs(content)[..p])
            && c.customerId == parent.customerId && c.documentId == parent.documentId
  {
    p := ChunkComesFrom(parent, Paragraphs(content), max, i);
    var c := Chunks(parent, Paragraphs(content), max)[i];
    CollectedIsProper(Split(content), Paragraphs(content)[p]);
    PieceIsProper(Paragraphs(content)[p], max, c.content);
  }

  // ---------------------------------------------------------------------- Tokens

  lemma {:induction false} WordsConcat(a: Text, b: Text)
    ensures Words(a + b) + (if EndsInWord(a) && StartsInWord(b) then 1 else 0) == Words(a) + Words(b)
  {
    if b == [] {
      assert a + b == a;
    } else {
      var init := b[..|b| - 1];
      WordsConcat(a, init);
      assert (a + b)[..|a + b| - 1] == a + init;
      if init == [] {
        assert a + init == a;
      }
    }
  }

  lemma {:induction false} CjkConcat(a: Text, b: Text)
    ensures CjkChars(a + b) == CjkChars(a) + CjkChars(b)
  {
    if b == [] {
      assert a + b == a;
    } else {
      CjkConcat(a, b[..|b| - 1]);
      assert (a + b)[..|a + b| - 1] == a + b[..|b| - 1];
    }
  }

  lemma {:induction false} SpaceHasNoTokens(s: Text)
    requires AllSpace(s, IsSpaceCode)
    ensures EstimateTokenCount(s) == 0 && !EndsInWord(s) && !StartsInWord(s)
  {
    if s != [] {
      SpaceHasNoTokens(s[..|s| - 1]);
    }
  }

  lemma TokensConcat(a: Text, b: Text)
    ensures EstimateTokenCount(a + b) + (if EndsInWord(a) && StartsInWord(b) then 1 else 0)
            == EstimateTokenCount(a) + EstimateTokenCount(b)
  {
    WordsConcat(a, b);
    CjkConcat(a, b);
  }

  lemma TrimKeepsTokens(s: Text)
    ensures EstimateTokenCount(Trim(s, IsSpaceCode)) == EstimateTokenCount(s)
  {
    var before, after := TrimSplits(s, IsSpaceCode);
    var t := Trim(s, IsSpaceCode);
    SpaceHasNoTokens(before);
    SpaceHasNoTokens(after);
    TokensConcat(before + t, after);
    TokensConcat(before, t);
  }

  function TokenSum(texts: seq<Text>): nat {
    if texts == [] then 0 else TokenSum(texts[..|texts| - 1]) + EstimateTokenCount(texts[|texts| - 1])
  }

  lemma {:induction false} TokenSumConcat(a: seq<Text>, b: seq<Text>)
    ensures TokenSum(a + b) == TokenSum(a) + TokenSum(b)
  {
    if b == [] {
      assert a + b == a;
    } else {
      TokenSumConcat(a, b[..|b| - 1]);
      assert (a + b)[..|a + b| - 1] == a + b[..|b| - 1];
    }
  }

  lemma TokenSumOne(t: Text)
    ensures TokenSum([t]) == EstimateTokenCount(t)
  {
    assert [t][..0] == [];
  }

  lemma {:induction false} TrimmedTokensKept(texts: seq<Text>)
    ensures TokenSum(Collect(texts, TrimNonEmpty)) == TokenSum(texts)
  {
    if texts != [] {
      var init, last := texts[..|texts| - 1], texts[|texts| - 1];
      TrimmedTokensKept(init);
      TrimKeepsTokens(last);
      if TrimNonEmpty(last).Some? {
        TokenSumConcat(Collect(init, TrimNonEmpty), [Trim(last, IsSpaceCode)]);
        TokenSumOne(Trim(last, IsSpaceCode));
      } else {
        assert Collect(init, TrimNonEmpty) + [] == Collect(init, TrimNonEmpty);
      }
    }
  }

  /** The cuts that fall inside a word. */
  function WordCuts(s: Text, max: nat): nat
    requires max >= 1
  {
    if |s| <= max then 0
    else (if WordChar(s[max - 1]) && WordChar(s[max]) then 1 else 0) + WordCuts(s[max..], max)
  }

  lemma {:induction false} SliceTokens(s: Text, max: nat)
    requires max >= 1
    ensures TokenSum(Slices(s, max)) == EstimateTokenCount(s) + WordCuts(s, max)
  {
    if s == [] {
    } else if |s| <= max {
      TokenSumOne(s);
    } else {
      SliceTokens(s[max..], max);
      TokenSumConcat([s[..max]], Slices(s[max..], max));
      TokenSumOne(s[..max]);
      CutTokens(s, max);
    }
  }

  lemma CutTokens(s: Text, at: nat)
    requires 1 <= at < |s|
    ensures EstimateTokenCount(s[..at]) + EstimateTokenCount(s[at..])
            == EstimateTokenCount(s) + if WordChar(s[at - 1]) && WordChar(s[at]) then 1 else 0
  {
    var a, b := s[..at], s[at..];
    SplitAt(s, at);
    assert EndsInWord(a) == WordChar(s[at - 1]) && StartsInWord(b) == WordChar(s[at]);
    TokensConcat(a, b);
  }

  /** Pieces count the paragraph's tokens, and one more for each cut inside a word. */
  lemma PieceTokens(value: Text, max: nat)
    requires max >= 1
    ensures TokenSum(Pieces(value, max)) == EstimateTokenCount(value) + WordCuts(value, max)
  {
    if |value| <= max {
      TokenSumOne(value);
    } else {
      TrimmedTokensKept(Slices(value, max));
      SliceTokens(value, max);
    }
  }

  /** How many times `max` fits into `n`, rounded up. */
  function CeilDiv(n: nat, max: nat): nat
    requires max >= 1
  {
    if n == 0 then 0 else if n <= max then 1 else 1 + CeilDiv(n - max, max)
  }

  lemma {:induction false} CeilDivIs(n: nat, max: nat)
    requires max >= 1
    ensures CeilDiv(n, max) == (n + max - 1) / max
  {
    if n > max {
      CeilDivIs(n - max, max);
    }
    if n > 0 {
      DivStep(n - 1, max);
    }
  }

  lemma DivStep(n: int, max: int)
    requires max >= 1
    ensures (n + max) / max == n / max + 1
  {
    var k := (n + max) / max - n / max - 1;
    assert k * max == n % max - (n + max) % max;
    if k >= 1 {
      MultipleReaches(k, max);
    } else if k <= -1 {
      MultipleReaches(-k, max);
    }
  }

  lemma MultipleReaches(k: int, max: int)
    requires k >= 1 && max >= 1
    ensures k * max >= max
  {
    assert (k - 1) * max >= 0;
  }

  lemma {:induction false} CutsBounded(s: Text, max: nat)
    requires max >= 1 && s != []
    ensures WordCuts(s, max) <= CeilDiv(|s|, max) - 1
  {
    if |s| > max {
      CutsBounded(s[max..], max);
    }
  }

  /** The chunks' token counts add up to at least the paragraph's, and to at most one
      more per cut. */
  lemma TokensBounded(value: Text, max: nat)
    requires max >= 1 && value != []
    ensures EstimateTokenCount(value) <= TokenSum(Pieces(value, max))
            <= EstimateTokenCount(value) + CeilDiv(|value|, max) - 1
  {
    PieceTokens(value, max);
    CutsBounded(value, max);
  }

  // --------------------------------------------------------------------- Headings

  /** A heading paragraph always leaves a trimmed heading that is not empty. */
  lemma HeadingIsProper(s: Text)
    requires Proper(s) && IsHeading(s)
    ensures Proper(NormalizeHeading(s))
  {
    var rest := if MarkdownHeading(s) then TrimStart(s[Hashes(s)..], IsSpaceCode) else s;
    TrimIsTrimmed(rest, IsSpaceCode);
    if MarkdownHeading(s) {
      var tail := s[Hashes(s)..];
      TrimStartDrops(tail, IsSpaceCode);
      assert !IsSpaceCode(tail[|tail| - 1]);
      assert rest != [] && rest[|rest| - 1] == s[|s| - 1];
      TrimKeepsTrimmed(rest, IsSpaceCode);
    } else {
      TrimKeepsTrimmed(s, IsSpaceCode);
    }
  }
}
