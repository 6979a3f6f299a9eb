/** Cutting a knowledge document into chunks. Text is a sequence of UTF-16 code units. */
module Chunking {
  import opened Prelude
  import opened Json
  import opened Texts
  import opened Collecting

  type Text = seq<int>

  const NEWLINE := 0x0A

  // ------------------------------------------------------------------ Paragraphs

  /** Where the first pair of newlines starts, or the end of the text. */
  function BreakAt(s: Text): (i: nat)
    ensures i <= |s|
    ensures i < |s| ==> i + 1 < |s| && s[i] == NEWLINE && s[i + 1] == NEWLINE
  {
    if |s| < 2 then |s|
    else if s[0] == NEWLINE && s[1] == NEWLINE then 0
    else 1 + BreakAt(s[1..])
  }

  function SkipNewlines(s: Text): (r: Text)
    ensures |r| <= |s|
  {
    if s != [] && s[0] == NEWLINE then SkipNewlines(s[1..]) else s
  }

  /** `split(/\n{2,}/)`. */
  function Split(s: Text): seq<Text>
    decreases |s|
  {
    var i := BreakAt(s);
    if i == |s| then [s] else [s[..i]] + Split(SkipNewlines(s[i + 2..]))
  }

  function TrimNonEmpty(s: Text): Option<Text> {
    var t := Trim(s, IsSpaceCode);
    if t == [] then None else Some(t)
  }

  function Paragraphs(content: Text): seq<Text> {
    Collect(Split(content), TrimNonEmpty)
  }

  // -------------------------------------------------------------------- Headings

  function Hashes(s: Text): (n: nat)
    ensures n <= |s|
    ensures n < |s| ==> s[n] != 0x23
  {
    if s != [] && s[0] == 0x23 then 1 + Hashes(s[1..]) else 0
  }

  /** `/^#{1,3}\s+/`. */
  predicate MarkdownHeading(s: Text) {
    1 <= Hashes(s) <= 3 && Hashes(s) < |s| && IsSpaceCode(s[Hashes(s)])
  }

  predicate LineTerminator(c: int) {
    c == 0x0A || c == 0x0D || c == 0x2028 || c == 0x2029
  }

  /** Starts with U+7B2C and has, later on the same line, U+7AE0 or U+7BC0. */
  predicate ChapterHeading(s: Text) {
    s != [] && s[0] == 0x7B2C
    && exists j :: 2 <= j < |s| && (s[j] == 0x7AE0 || s[j] == 0x7BC0)
                   && forall k :: 1 <= k < j ==> !LineTerminator(s[k])
  }

  predicate IsHeading(s: Text) {
    MarkdownHeading(s) || ChapterHeading(s)
  }

  function NormalizeHeading(s: Text): Text {
    var rest := if MarkdownHeading(s) then TrimStart(s[Hashes(s)..], IsSpaceCode) else s;
    Trim(rest, IsSpaceCode)
  }

  // ---------------------------------------------------------------------- Tokens

  /** `[A-Za-z0-9_-]`. */
  predicate WordChar(c: int) {
    65 <= c <= 90 || 97 <= c <= 122 || 48 <= c <= 57 || c == 95 || c == 45
  }

  predicate CjkChar(c: int) {
    0x4E00 <= c <= 0x9FFF
  }

  predicate EndsInWord(s: Text) {
    s != [] && WordChar(s[|s| - 1])
  }

  predicate StartsInWord(s: Text) {
    s != [] && WordChar(s[0])
  }

  /** The number of maximal runs of word characters. */
  function Words(s: Text): nat {
    if s == [] then 0
    else Words(s[..|s| - 1]) + if EndsInWord(s) && !EndsInWord(s[..|s| - 1]) then 1 else 0
  }

  function CjkChars(s: Text): nat {
    if s == [] then 0 else CjkChars(s[..|s| - 1]) + if CjkChar(s[|s| - 1]) then 1 else 0
  }

  function EstimateTokenCount(s: Text): nat {
    Words(s) + CjkChars(s)
  }

  // ------------------------------------------------------------------------ Cuts

  /** The text cut every `max` characters. */
  function Slices(s: Text, max: nat): seq<Text>
    requires max >= 1
  {
    if s == [] then []
    else if |s| <= max then [s]
    else [s[..max]] + Slices(s[max..], max)
  }

  function Pieces(value: Text, max: nat): seq<Text>
    requires max >= 1
  {
    if |value| <= max then [value] else Collect(Slices(value, max), TrimNonEmpty)
  }

  function KeepNonEmpty(s: Text): Option<Text> {
    if s == [] then None else Some(s)
  }

  function TrimEach(texts: seq<Text>): seq<Text> {
    seq(|texts|, i requires 0 <= i < |texts| => Trim(texts[i], IsSpaceCode))
  }

  lemma {:induction false} FilterOfTrims(texts: seq<Text>)
    ensures Collect(TrimEach(texts), KeepNonEmpty) == Collect(texts, TrimNonEmpty)
  {
    if texts != [] {
      var init := texts[..|texts| - 1];
      assert TrimEach(texts)[..|texts| - 1] == TrimEach(init);
      FilterOfTrims(init);
    }
  }

  method SplitBySize(value: Text, maxChars: nat) returns (pieces: seq<Text>)
    requires maxChars >= 1
    ensures pieces == Pieces(value, maxChars)
  {
    if |value| <= maxChars {
      return [value];
    }
    var chunks := Cut(value, maxChars);
    FilterOfTrims(Slices(value, maxChars));
    return Collect(chunks, KeepNonEmpty);
  }

  /** The loop: one trimmed slice for every offset. */
  method Cut(value: Text, maxChars: nat) returns (chunks: seq<Text>)
    requires maxChars >= 1
    ensures chunks == TrimEach(Slices(value, maxChars))
  {
    chunks := [];
    var offset := 0;
    ghost var done: seq<Text>, rest := [], value;
    while offset < |value|
      invariant 0 <= offset
      invariant rest == if offset <= |value| then value[offset..] else []
      invariant chunks == TrimEach(done)
      invariant done + Slices(rest, maxChars) == Slices(value, maxChars)
      decreases |value| - offset
    {
      var end := if offset + maxChars <= |value| then offset + maxChars else |value|;
      var slice := value[offset..end];
      SliceNext(done, rest, maxChars);
      TrimEachNext(done, slice);
      SliceOfRest(value, offset, end);
      done, rest := done + [slice], rest[end - offset..];
      chunks := chunks + [Trim(slice, IsSpaceCode)];
      offset := offset + maxChars;
    }
    assert done == Slices(value, maxChars);
  }

  lemma SliceOfRest(value: Text, offset: nat, end: nat)
    requires offset <= end <= |value|
    ensures value[offset..end] == value[offset..][..end - offset]
    ensures value[offset..][end - offset..] == value[end..]
  {
  }

  lemma SliceNext(done: seq<Text>, rest: Text, max: nat)
    requires max >= 1 && rest != []
    ensures var n := if max <= |rest| then max else |rest|;
            done + [rest[..n]] + Slices(rest[n..], max) == done + Slices(rest, max)
  {
    if |rest| <= max {
      assert rest[..|rest|] == rest;
    } else {
      Regroup(done, [rest[..max]], Slices(rest[max..], max));
    }
  }

  lemma TrimEachNext(texts: seq<Text>, t: Text)
    ensures TrimEach(texts + [t]) == TrimEach(texts) + [Trim(t, IsSpaceCode)]
  {
  }

  // ---------------------------------------------------------------------- Chunks

  datatype Parent = Parent(customerId: string, documentId: string)

  function CanonicalId(v: Option<Value>): Option<string> {
    if v.None? || !v.value.Text? || IsBlank(v.value.text) then None else Some(Trim(v.value.text, IsSpace))
  }

  /** None is the source's exception. */
  function NormalizeParent(customerId: Option<Value>, documentId: Option<Value>, documentCustomerId: Option<Value>):
    Option<Parent>
  {
    var customer, document := CanonicalId(customerId), CanonicalId(documentId);
    if customer.None? || document.None? then None
    else if documentCustomerId.Some? && CanonicalId(documentCustomerId) != customer then None
    else Some(Parent(customer.value, document.value))
  }

  datatype Chunk = Chunk(
    customerId: string, documentId: string, chunkIndex: nat, heading: Option<Text>, content: Text,
    tokenCount: nat, enabled: bool)

  function ChunkOf(parent: Parent, index: nat, heading: Option<Text>, content: Text): Chunk {
    Chunk(parent.customerId, parent.documentId, index, heading, content, EstimateTokenCount(content), |content| > 0)
  }

  /** The chunks of consecutive pieces under one heading, numbered from `from`. */
  function Number(parent: Parent, from: nat, heading: Option<Text>, pieces: seq<Text>): (r: seq<Chunk>)
    ensures |r| == |pieces|
  {
    if pieces == [] then []
    else Number(parent, from, heading, pieces[..|pieces| - 1])
         + [ChunkOf(parent, from + |pieces| - 1, heading, pieces[|pieces| - 1])]
  }

  /** The last heading among the paragraphs. */
  function LastHeading(paragraphs: seq<Text>): Option<Text> {
    if paragraphs == [] then None
    else
      var last := paragraphs[|paragraphs| - 1];
      if IsHeading(last) then Some(NormalizeHeading(last)) else LastHeading(paragraphs[..|paragraphs| - 1])
  }

  function Chunks(parent: Parent, paragraphs: seq<Text>, max: nat): seq<Chunk>
    requires max >= 1
  {
    if paragraphs == [] then []
    else
      var init, last := paragraphs[..|paragraphs| - 1], paragraphs[|paragraphs| - 1];
      var before := Chunks(parent, init, max);
      if IsHeading(last) then before
      else before + Number(parent, |before|, LastHeading(init), Pieces(last, max))
  }

  method ChunkDocument(
    customerId: Option<Value>, documentId: Option<Value>, documentCustomerId: Option<Value>,
    content: Text, maxChars: Option<nat>)
    returns (r: Option<seq<Chunk>>)
    requires maxChars.Some? ==> maxChars.value >= 1
    ensures var parent := NormalizeParent(customerId, documentId, documentCustomerId);
            r == if parent.None? then None
                 else Some(Chunks(parent.value, Paragraphs(content), if maxChars.Some? then maxChars.value else 700))
  {
    var parent := NormalizeParent(customerId, documentId, documentCustomerId);
    if parent.None? {
      return None;
    }
    var max := if maxChars.Some? then maxChars.value else 700;
    var chunks := ChunkParagraphs(parent.value, Paragraphs(content), max);
    return Some(chunks);
  }

  /** The loop over the paragraphs. */
  method ChunkParagraphs(parent: Parent, paragraphs: seq<Text>, max: nat) returns (chunks: seq<Chunk>)
    requires max >= 1
    ensures chunks == Chunks(parent, paragraphs, max)
  {
    chunks := [];
    var heading: Option<Text> := None;
    for p := 0 to |paragraphs|
      invariant chunks == Chunks(parent, paragraphs[..p], max)
      invariant heading == LastHeading(paragraphs[..p])
    {
      var paragraph := paragraphs[p];
      assert paragraphs[..p + 1][..p] == paragraphs[..p];
      if IsHeading(paragraph) {
        heading := Some(NormalizeHeading(paragraph));
      } else {
        var pieces := SplitBySize(paragraph, max);
        chunks := PushPieces(parent, heading, pieces, chunks);
      }
    }
    assert paragraphs[..|paragraphs|] == paragraphs;
  }

  /** The inner loop: one chunk per piece. */
  method PushPieces(parent: Parent, heading: Option<Text>, pieces: seq<Text>, before: seq<Chunk>)
    returns (chunks: seq<Chunk>)
    ensures chunks == before + Number(parent, |before|, heading, pieces)
  {
    chunks := before;
    for i := 0 to |pieces|
      invariant chunks == before + Number(parent, |before|, heading, pieces[..i])
    {
      assert pieces[..i + 1][..i] == pieces[..i];
      chunks := chunks + [ChunkOf(parent, |chunks|, heading, pieces[i])];
    }
    assert pieces[..|pieces|] == pieces;
  }
}
