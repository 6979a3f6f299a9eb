/** Paragraphs, headings, cuts and counts, said of the characters of the text. */
module ChunkingMeaning {
  import opened Prelude
  import opened Json
  import opened Texts
  import opened Collecting
  import opened Chunking
  import opened ChunkingTheorems

  // ------------------------------------------------------------------ Paragraphs

  /** Two or more newlines. */
  predicate IsGap(s: Text) {
    |s| >= 2 && forall i :: 0 <= i < |s| ==> s[i] == 0x0A
  }

  function Woven(parts: seq<Text>, gaps: seq<Text>): Text
    requires |parts| == |gaps| + 1
  {
    if gaps == [] then parts[0] else parts[0] + gaps[0] + Woven(parts[1..], gaps[1..])
  }

  predicate NoPair(s: Text) {
    forall i :: 0 <= i < |s| - 1 ==> s[i] != 0x0A || s[i + 1] != 0x0A
  }

  /** The text is the parts with gaps between. Gaps are as long as they can be: no part after a
      gap starts with a newline, none before one ends with one, and none has two in a row. */
  predicate SplitsInto(s: Text, parts: seq<Text>, gaps: seq<Text>) {
    && |parts| == |gaps| + 1 && s == Woven(parts, gaps)
    && (forall i :: 0 <= i < |gaps| ==> IsGap(gaps[i]))
    && (forall i :: 0 <= i < |parts| ==> NoPair(parts[i]))
    && (forall i :: 1 <= i < |parts| ==> parts[i] == [] || parts[i][0] != 0x0A)
    && (forall i :: 0 <= i < |gaps| ==> parts[i] == [] || parts[i][|parts[i]| - 1] != 0x0A)
  }

  lemma {:induction false} Skipped(s: Text) returns (n: nat)
    ensures n <= |s| && SkipNewlines(s) == s[n..] && forall i :: 0 <= i < n ==> s[i] == 0x0A
    ensures n < |s| ==> s[n] != 0x0A
  {
    if s != [] && s[0] == NEWLINE {
      n := Skipped(s[1..]);
      n := n + 1;
      forall i | 0 <= i < n
        ensures s[i] == 0x0A
      {
        if i > 0 {
          assert s[i] == s[1..][i - 1];
        }
      }
    } else {
      n := 0;
    }
  }

  lemma {:induction false} BreakIsFirst(s: Text)
    ensures NoPair(s[..BreakAt(s)])
    ensures 0 < BreakAt(s) < |s| ==> s[BreakAt(s) - 1] != 0x0A
  {
    BeforeBreak(s);
    BreakAtIff(s[..BreakAt(s)]);
    if 0 < BreakAt(s) < |s| {
      NoneBefore(s, BreakAt(s) - 1);
    }
  }

  lemma {:induction false} NoneBefore(s: Text, i: nat)
    requires i < BreakAt(s) && i + 1 < |s|
    ensures s[i] != NEWLINE || s[i + 1] != NEWLINE
  {
    if i > 0 {
      NoneBefore(s[1..], i - 1);
    }
  }

  /** How the document is split. */
  lemma {:induction false} SplitIs(s: Text) returns (gaps: seq<Text>)
    ensures SplitsInto(s, Split(s), gaps)
    decreases |s|
  {
    var i := BreakAt(s);
    BreakIsFirst(s);
    if i == |s| {
      gaps := [];
      OnePart(s);
    } else {
      var rest := SkipNewlines(s[i + 2..]);
      var more := SplitIs(rest);
      gaps := FrontSplit(s, i, rest, Split(rest), more);
    }
  }

  lemma OnePart(s: Text)
    requires NoPair(s[..|s|])
    ensures SplitsInto(s, [s], [])
  {
    assert s[..|s|] == s;
  }

  lemma FrontSplit(s: Text, i: nat, rest: Text, parts: seq<Text>, more: seq<Text>) returns (gaps: seq<Text>)
    requires i + 2 <= |s| && s[i] == 0x0A && s[i + 1] == 0x0A && rest == SkipNewlines(s[i + 2..])
    requires NoPair(s[..i]) && (i > 0 ==> s[i - 1] != 0x0A)
    requires SplitsInto(rest, parts, more)
    ensures SplitsInto(s, [s[..i]] + parts, gaps)
  {
    var tail := s[i + 2..];
    var n := Skipped(tail);
    GapIs(s, i, tail, n);
    gaps := [s[i..i + 2 + n]] + more;
    StartsPlain(rest, parts, more);
    FirstSplit(s[..i], s[i..i + 2 + n], rest, parts, more);
  }

  lemma GapIs(s: Text, i: nat, tail: Text, n: nat)
    requires i + 2 <= |s| && s[i] == 0x0A && s[i + 1] == 0x0A && tail == s[i + 2..]
    requires n <= |tail| && forall k :: 0 <= k < n ==> tail[k] == 0x0A
    ensures IsGap(s[i..i + 2 + n]) && s == s[..i] + s[i..i + 2 + n] + tail[n..]
  {
    var gap := s[i..i + 2 + n];
    forall k | 0 <= k < |gap|
      ensures gap[k] == 0x0A
    {
      if k >= 2 {
        assert gap[k] == tail[k - 2];
      }
    }
  }

  /** The first part starts as the text does. */
  lemma StartsPlain(s: Text, parts: seq<Text>, gaps: seq<Text>)
    requires SplitsInto(s, parts, gaps) && (s == [] || s[0] != 0x0A)
    ensures parts[0] == [] || parts[0][0] != 0x0A
  {
    if parts[0] != [] {
      assert s[0] == parts[0][0];
    }
  }

  lemma FirstSplit(first: Text, gap: Text, rest: Text, parts: seq<Text>, gaps: seq<Text>)
    requires SplitsInto(rest, parts, gaps) && IsGap(gap) && NoPair(first)
    requires first == [] || first[|first| - 1] != 0x0A
    requires parts[0] == [] || parts[0][0] != 0x0A
    ensures SplitsInto(first + gap + rest, [first] + parts, [gap] + gaps)
  {
    assert ([first] + parts)[1..] == parts && ([gap] + gaps)[1..] == gaps;
  }

  // -------------------------------------------------------------------- Headings

  lemma {:induction false} HashesAre(s: Text)
    ensures forall k :: 0 <= k < Hashes(s) ==> s[k] == 0x23
  {
    if s != [] && s[0] == 0x23 {
      HashesAre(s[1..]);
      forall k | 0 <= k < Hashes(s)
        ensures s[k] == 0x23
      {
        if k > 0 {
          assert s[k] == s[1..][k - 1];
        }
      }
    }
  }

  /** One to three hashes, then white space. */
  predicate HashHeading(s: Text, n: nat) {
    1 <= n <= 3 && n < |s| && (forall k :: 0 <= k < n ==> s[k] == 0x23) && IsSpaceCode(s[n])
  }

  /** U+7B2C first and U+7AE0 or U+7BC0 after at least one more character of the line. */
  predicate OrdinalHeading(s: Text, j: nat) {
    && 2 <= j < |s| && s[0] == 0x7B2C && (s[j] == 0x7AE0 || s[j] == 0x7BC0)
    && forall k :: 1 <= k < j ==> s[k] != 0x0A && s[k] != 0x0D && s[k] != 0x2028 && s[k] != 0x2029
  }

  lemma HashHeadingIs(s: Text, n: nat)
    ensures HashHeading(s, n) <==> MarkdownHeading(s) && n == Hashes(s)
  {
    HashesAre(s);
    assert !IsSpaceCode(0x23);
  }

  /** What a heading is, on its characters. */
  lemma HeadingIs(s: Text)
    ensures IsHeading(s) <==> (exists n :: HashHeading(s, n)) || exists j :: OrdinalHeading(s, j)
  {
    HashHeadingIs(s, Hashes(s));
    forall n
      ensures HashHeading(s, n) <==> MarkdownHeading(s) && n == Hashes(s)
    {
      HashHeadingIs(s, n);
    }
    if ChapterHeading(s) {
      var j :| 2 <= j < |s| && (s[j] == 0x7AE0 || s[j] == 0x7BC0) && forall k :: 1 <= k < j ==> !LineTerminator(s[k]);
      assert OrdinalHeading(s, j);
    }
  }

  lemma DropDrop<T>(s: seq<T>, n: nat, k: nat)
    requires n + k <= |s|
    ensures s[n..][k..] == s[n + k..]
  {
  }

  /** The name of a heading after hashes is what follows them but for the white space around
      it; any other is its own name. */
  lemma HeadingNameIs(s: Text, n: nat) returns (a: nat, b: nat)
    requires Trimmed(s, IsSpaceCode)
    ensures HashHeading(s, n) ==>
              && n < a <= b == |s| && NormalizeHeading(s) == s[a..b] && Trimmed(s[a..b], IsSpaceCode)
              && forall k :: n <= k < a ==> IsSpaceCode(s[k])
    ensures (forall k :: !HashHeading(s, k)) ==> NormalizeHeading(s) == s
  {
    HashHeadingIs(s, n);
    HashHeadingIs(s, Hashes(s));
    a, b := 0, 0;
    if HashHeading(s, n) {
      var rest := s[n..];
      var t := TrimStart(rest, IsSpaceCode);
      TrimStartDrops(rest, IsSpaceCode);
      a, b := |s| - |t|, |s|;
      DropDrop(s, n, |rest| - |t|);
      assert t == s[a..] == s[a..b];
      TrimKeepsTrimmed(t, IsSpaceCode);
      forall k | n <= k < a
        ensures IsSpaceCode(s[k])
      {
        assert s[k] == rest[..|rest| - |t|][k - n];
      }
    } else {
      TrimKeepsTrimmed(s, IsSpaceCode);
    }
  }

  // ------------------------------------------------------------------------ Cuts

  /** A longer text is cut every `max` characters. */
  lemma {:induction false} SlicesAre(s: Text, max: nat, k: nat)
    requires max >= 1
    ensures |Slices(s, max)| == CeilDiv(|s|, max)
    ensures k < |Slices(s, max)| ==>
              && k * max < |s|
              && Slices(s, max)[k] == s[k * max..if (k + 1) * max <= |s| then (k + 1) * max else |s|]
    decreases |s|
  {
    if |s| > max {
      var rest := s[max..];
      SlicesAre(rest, max, if k > 0 then k - 1 else 0);
      if 0 < k < |Slices(s, max)| {
        OneOff(k, max);
        assert Slices(s, max)[k] == Slices(rest, max)[k - 1];
        SliceShift(s, max, k);
      }
    }
  }

  lemma OneOff(k: nat, max: nat)
    requires k > 0
    ensures (k - 1) * max + max == k * max && k * max + max == (k + 1) * max
  {
  }

  lemma SliceShift(s: Text, max: nat, k: nat)
    requires 1 <= max < |s| && k > 0 && (k - 1) * max + max == k * max < |s| && k * max + max == (k + 1) * max
    ensures var end := if k * max <= |s| - max then k * max else |s| - max;
            0 <= (k - 1) * max <= end
            && s[max..][(k - 1) * max..end] == s[k * max..if (k + 1) * max <= |s| then (k + 1) * max else |s|]
  {
  }

  // ---------------------------------------------------------------------- Counts


  /** A letter, a digit, an underscore or a hyphen. */
  predicate IsWordCode(c: int) {
    || 'a' as int <= c <= 'z' as int || 'A' as int <= c <= 'Z' as int || '0' as int <= c <= '9' as int
    || c == '_' as int || c == '-' as int
  }

  /** A run of word characters starts here. */
  predicate WordStartsAt(s: Text, i: nat)
    requires i < |s|
  {
    IsWordCode(s[i]) && (i == 0 || !IsWordCode(s[i - 1]))
  }

  function WordStarts(s: Text): set<nat> {
    set i | 0 <= i < |s| && WordStartsAt(s, i)
  }

  lemma WordStartsNext(s: Text)
    requires s != []
    ensures var last := |s| - 1;
            WordStarts(s) == WordStarts(s[..last]) + (if WordStartsAt(s, last) then {last} else {})
            && last !in WordStarts(s[..last])
  {
    var last := |s| - 1;
    forall i | 0 <= i < last
      ensures WordStartsAt(s, i) == WordStartsAt(s[..last], i)
    {
    }
  }

  lemma {:induction false} WordsAre(s: Text)
    ensures Words(s) == |WordStarts(s)|
  {
    if s != [] {
      WordsAre(s[..|s| - 1]);
      WordStartsNext(s);
    }
  }

  lemma {:induction false} CjkCharsAre(s: Text)
    ensures CjkChars(s) == CountWhere(s, c => 0x4E00 <= c <= 0x9FFF)
  {
    if s != [] {
      CjkCharsAre(s[..|s| - 1]);
      CountWhereNext(s, c => 0x4E00 <= c <= 0x9FFF);
    }
  }

  /** Every run of word characters is a token, and so is every CJK character. */
  lemma TokensAre(s: Text)
    ensures EstimateTokenCount(s) == |WordStarts(s)| + CountWhere(s, c => 0x4E00 <= c <= 0x9FFF)
  {
    WordsAre(s);
    CjkCharsAre(s);
  }

  /** A word is one token. */
  lemma {:induction false} PlainWord(s: Text)
    requires s != [] && forall i :: 0 <= i < |s| ==> IsWordCode(s[i])
    ensures EstimateTokenCount(s) == 1
  {
    if |s| > 1 {
      PlainWord(s[..|s| - 1]);
    } else {
      assert s[..|s| - 1] == [] && IsWordCode(s[0]);
      assert CjkChars(s[..|s| - 1]) == 0 && !CjkChar(s[|s| - 1]);
    }
  }

  /** A run of CJK characters is as many tokens as it has characters. */
  lemma {:induction false} CjkRun(s: Text)
    requires forall i :: 0 <= i < |s| ==> 0x4E00 <= s[i] <= 0x9FFF
    ensures EstimateTokenCount(s) == |s|
  {
    if s != [] {
      CjkRun(s[..|s| - 1]);
    }
  }

  // ---------------------------------------------------------------------- Parents

  /** The value is this id with nothing but white space around it. */
  ghost predicate IsId(v: Option<Value>, id: string) {
    && v.Some? && v.value.Text? && id != [] && Trimmed(id, IsSpace)
    && exists before, after :: v.value.text == before + id + after && AllSpace(before, IsSpace) && AllSpace(after, IsSpace)
  }

  lemma {:induction false} TrimOfPadded(before: string, id: string, after: string)
    requires id != [] && Trimmed(id, IsSpace) && AllSpace(before, IsSpace) && AllSpace(after, IsSpace)
    ensures Trim(before + id + after, IsSpace) == id
    decreases |before| + |after|
  {
    var s := before + id + after;
    if before != [] {
      assert s[1..] == before[1..] + id + after;
      TrimOfPadded(before[1..], id, after);
    } else if after != [] {
      var last := |after| - 1;
      assert s[0] == id[0] && s[..|s| - 1] == before + id + after[..last];
      TrimOfPadded(before, id, after[..last]);
      assert (before + id + after[..last])[0] == id[0];
    } else {
      assert s == id;
      TrimKeepsTrimmed(id, IsSpace);
    }
  }

  lemma IdIs(v: Option<Value>, id: string)
    ensures CanonicalId(v) == Some(id) <==> IsId(v, id)
  {
    if v.Some? && v.value.Text? {
      var before, after := TrimSplits(v.value.text, IsSpace);
      TrimIsTrimmed(v.value.text, IsSpace);
      if IsId(v, id) {
        var b, a :| v.value.text == b + id + a && AllSpace(b, IsSpace) && AllSpace(a, IsSpace);
        TrimOfPadded(b, id, a);
      }
    }
  }

  /** The parent of the chunks: both ids, and the document's customer is the same if given. */
  lemma ParentIs(customerId: Option<Value>, documentId: Option<Value>, documentCustomerId: Option<Value>, p: Parent)
    ensures NormalizeParent(customerId, documentId, documentCustomerId) == Some(p) <==>
            && IsId(customerId, p.customerId) && IsId(documentId, p.documentId)
            && (documentCustomerId.None? || IsId(documentCustomerId, p.customerId))
  {
    IdIs(customerId, p.customerId);
    IdIs(documentId, p.documentId);
    IdIs(documentCustomerId, p.customerId);
  }
}
