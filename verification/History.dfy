/** Reading a session's messages page by page. */
module History {
  import opened Prelude

  type Id = string

  /** Math.min(Math.max(limit ?? 50, 1), 50). */
  function Clamp(limit: Option<int>): (n: nat)
    ensures 1 <= n <= 50
  {
    var asked := if limit.Some? then limit.value else 50;
    if asked < 1 then 1 else if asked > 50 then 50 else asked
  }

  /** A limit from 1 to 50 is kept, a smaller one becomes 1, a larger or missing one 50. */
  lemma ClampIs(limit: int)
    ensures Clamp(None) == 50
    ensures Clamp(Some(limit)) == if limit < 1 then 1 else if limit <= 50 then limit else 50
  {
  }

  /** The ids of a session's messages in the order of their creation. */
  ghost predicate Proper(messages: seq<Id>) {
    && "" !in messages
    && forall i, j :: 0 <= i < j < |messages| ==> messages[i] != messages[j]
  }

  function IndexOf(messages: seq<Id>, id: Id): (i: nat)
    requires id in messages
    ensures i < |messages| && messages[i] == id
  {
    if messages[0] == id then 0 else 1 + IndexOf(messages[1..], id)
  }

  /** An empty cursor counts as none. */
  predicate HasCursor(cursor: Option<Id>) {
    cursor.Some? && cursor.value != ""
  }

  function Take(messages: seq<Id>, n: nat): (r: seq<Id>)
    ensures |r| <= n
  {
    if n <= |messages| then messages[..n] else messages
  }

  /** How many messages lie up to and including the cursor. */
  function Position(messages: seq<Id>, cursor: Option<Id>): (n: nat)
    requires HasCursor(cursor) ==> cursor.value in messages
    ensures n <= |messages|
  {
    if HasCursor(cursor) then IndexOf(messages, cursor.value) + 1 else 0
  }

  /** `findMany` with a cursor that is skipped. */
  function FindMessages(messages: seq<Id>, cursor: Option<Id>, limit: nat): seq<Id>
    requires HasCursor(cursor) ==> cursor.value in messages
  {
    Take(messages[Position(messages, cursor)..], limit)
  }

  datatype Page = Page(messages: seq<Id>, nextCursor: Option<Id>)

  /** None is the exception for a cursor that is not a message of the session. */
  function ListMessages(messages: seq<Id>, cursor: Option<Id>, asked: Option<int>): Option<Page> {
    var limit := Clamp(asked);
    if HasCursor(cursor) && cursor.value !in messages then None
    else
      var found := FindMessages(messages, cursor, limit + 1);
      var visible := Take(found, limit);
      Some(Page(visible, if |found| > limit then Some(visible[limit - 1]) else None))
  }

  lemma IndexIsUnique(messages: seq<Id>, i: nat)
    requires Proper(messages) && i < |messages|
    ensures IndexOf(messages, messages[i]) == i
  {
  }

  /** With more than a page left, the page is full and its last message is the cursor. */
  lemma FullPage(messages: seq<Id>, cursor: Option<Id>, asked: Option<int>)
    requires Proper(messages) && (HasCursor(cursor) ==> cursor.value in messages)
    requires Position(messages, cursor) + Clamp(asked) < |messages|
    ensures var start, end := Position(messages, cursor), Position(messages, cursor) + Clamp(asked);
            ListMessages(messages, cursor, asked) == Some(Page(messages[start..end], Some(messages[end - 1])))
            && HasCursor(Some(messages[end - 1])) && Position(messages, Some(messages[end - 1])) == end
  {
    var start, limit := Position(messages, cursor), Clamp(asked);
    IndexIsUnique(messages, start + limit - 1);
    SliceOfSlice(messages, start, limit);
    assert messages[start + limit - 1] in messages;
  }

  /** Otherwise it holds the rest, and there is no next cursor. */
  lemma LastPage(messages: seq<Id>, cursor: Option<Id>, asked: Option<int>)
    requires Proper(messages) && (HasCursor(cursor) ==> cursor.value in messages)
    requires Position(messages, cursor) + Clamp(asked) >= |messages|
    ensures ListMessages(messages, cursor, asked) == Some(Page(messages[Position(messages, cursor)..], None))
  {
    var rest := messages[Position(messages, cursor)..];
    assert rest[..|rest|] == rest;
  }

  /** A page starts right after its cursor, and the next cursor is its last message. */
  lemma PageIs(messages: seq<Id>, cursor: Option<Id>, asked: Option<int>) returns (page: Page, end: nat)
    requires Proper(messages) && (HasCursor(cursor) ==> cursor.value in messages)
    ensures ListMessages(messages, cursor, asked) == Some(page)
    ensures var start, limit := Position(messages, cursor), Clamp(asked);
            start <= end && end == if start + limit < |messages| then start + limit else |messages|
    ensures page.messages == messages[Position(messages, cursor)..end]
    ensures page.nextCursor.Some? <==> end < |messages|
    ensures page.nextCursor.Some? ==>
      HasCursor(page.nextCursor) && page.nextCursor.value in messages && Position(messages, page.nextCursor) == end
  {
    var start, limit := Position(messages, cursor), Clamp(asked);
    if start + limit < |messages| {
      FullPage(messages, cursor, asked);
      page, end := Page(messages[start..start + limit], Some(messages[start + limit - 1])), start + limit;
    } else {
      LastPage(messages, cursor, asked);
      page, end := Page(messages[start..], None), |messages|;
    }
  }

  /** There is no page exactly for a cursor that is no message of the session. */
  lemma NoPageIff(messages: seq<Id>, cursor: Option<Id>, asked: Option<int>)
    ensures ListMessages(messages, cursor, asked).None? <==> cursor.Some? && cursor.value != "" && cursor.value !in messages
  {
  }

  lemma CursorAdvances(messages: seq<Id>, cursor: Option<Id>, asked: Option<int>)
    requires Proper(messages) && (HasCursor(cursor) ==> cursor.value in messages)
    ensures ListMessages(messages, cursor, asked).Some?
    ensures var next := ListMessages(messages, cursor, asked).value.nextCursor;
            next.Some? ==> HasCursor(next) && next.value in messages
                           && Position(messages, cursor) < Position(messages, next)
  {
    var page, end := PageIs(messages, cursor, asked);
  }

  lemma SliceOfSlice(messages: seq<Id>, start: nat, limit: nat)
    requires start + limit < |messages|
    ensures messages[start..][..limit + 1][..limit] == messages[start..start + limit]
  {
  }

  /** The pages from a cursor on, following the next cursor until there is none. */
  function Follow(messages: seq<Id>, cursor: Option<Id>, asked: Option<int>): seq<seq<Id>>
    requires Proper(messages) && (HasCursor(cursor) ==> cursor.value in messages)
    decreases |messages| - Position(messages, cursor)
  {
    CursorAdvances(messages, cursor, asked);
    var page := ListMessages(messages, cursor, asked).value;
    if page.nextCursor.None? then [page.messages]
    else [page.messages] + Follow(messages, page.nextCursor, asked)
  }

  function Concat(pages: seq<seq<Id>>): seq<Id> {
    if pages == [] then [] else pages[0] + Concat(pages[1..])
  }

  /** The messages from `start` on, cut into pages. */
  function Cut(messages: seq<Id>, start: nat, limit: nat): seq<seq<Id>>
    requires start <= |messages| && limit >= 1
    decreases |messages| - start
  {
    if start + limit < |messages| then [messages[start..start + limit]] + Cut(messages, start + limit, limit)
    else [messages[start..]]
  }

  lemma FollowsFull(messages: seq<Id>, cursor: Option<Id>, asked: Option<int>, start: nat, limit: nat)
    requires Proper(messages) && (HasCursor(cursor) ==> cursor.value in messages)
    requires start == Position(messages, cursor) && limit == Clamp(asked) && start + limit < |messages|
    ensures var next := Some(messages[start + limit - 1]);
            && HasCursor(next) && next.value in messages && Position(messages, next) == start + limit
            && Follow(messages, cursor, asked) == [messages[start..start + limit]] + Follow(messages, next, asked)
  {
    FullPage(messages, cursor, asked);
  }

  lemma FollowsLast(messages: seq<Id>, cursor: Option<Id>, asked: Option<int>, start: nat)
    requires Proper(messages) && (HasCursor(cursor) ==> cursor.value in messages)
    requires start == Position(messages, cursor) && start + Clamp(asked) >= |messages|
    ensures Follow(messages, cursor, asked) == [messages[start..]]
  {
    LastPage(messages, cursor, asked);
  }

  lemma {:induction false} FollowCuts(messages: seq<Id>, cursor: Option<Id>, asked: Option<int>)
    requires Proper(messages) && (HasCursor(cursor) ==> cursor.value in messages)
    ensures Follow(messages, cursor, asked) == Cut(messages, Position(messages, cursor), Clamp(asked))
    decreases |messages| - Position(messages, cursor)
  {
    var start, limit := Position(messages, cursor), Clamp(asked);
    if start + limit < |messages| {
      FollowsFull(messages, cursor, asked, start, limit);
      FollowCuts(messages, Some(messages[start + limit - 1]), asked);
    } else {
      FollowsLast(messages, cursor, asked, start);
    }
  }

  lemma {:induction false} CutCovers(messages: seq<Id>, start: nat, limit: nat)
    requires start <= |messages| && limit >= 1
    ensures Concat(Cut(messages, start, limit)) == messages[start..]
    decreases |messages| - start
  {
    if start + limit < |messages| {
      CutCovers(messages, start + limit, limit);
      ConcatCons(messages[start..start + limit], Cut(messages, start + limit, limit));
    } else {
      ConcatCons(messages[start..], []);
      assert [messages[start..]] + [] == [messages[start..]];
    }
  }

  lemma ConcatCons(page: seq<Id>, pages: seq<seq<Id>>)
    ensures Concat([page] + pages) == page + Concat(pages)
  {
    assert ([page] + pages)[1..] == pages;
  }

  /** Following the cursor from the start visits every message once, in order. */
  lemma WalkVisitsAll(messages: seq<Id>, asked: Option<int>)
    requires Proper(messages)
    ensures Concat(Follow(messages, None, asked)) == messages
  {
    FollowCuts(messages, None, asked);
    CutCovers(messages, 0, Clamp(asked));
  }

  lemma {:induction false} CutIsFull(messages: seq<Id>, start: nat, limit: nat, k: nat)
    requires start <= |messages| && limit >= 1 && k < |Cut(messages, start, limit)|
    ensures var pages := Cut(messages, start, limit);
            |pages[k]| <= limit && (k < |pages| - 1 ==> |pages[k]| == limit)
    decreases |messages| - start
  {
    if start + limit < |messages| && k > 0 {
      CutIsFull(messages, start + limit, limit, k - 1);
    }
  }

  /** All pages but the last hold exactly the clamped limit. */
  lemma PagesAreFull(messages: seq<Id>, asked: Option<int>, k: nat)
    requires Proper(messages) && k < |Follow(messages, None, asked)|
    ensures var pages := Follow(messages, None, asked);
            |pages[k]| <= Clamp(asked) && (k < |pages| - 1 ==> |pages[k]| == Clamp(asked))
  {
    FollowCuts(messages, None, asked);
    CutIsFull(messages, 0, Clamp(asked), k);
  }

  // ------------------------------------------------ Messages added between fetches

  predicate IsPrefix(a: seq<Id>, b: seq<Id>) {
    |a| <= |b| && b[..|a|] == a
  }

  /** Every fetch sees the messages of the one before, and maybe more. */
  ghost predicate Growing(snapshots: seq<seq<Id>>) {
    && (forall i :: 0 <= i < |snapshots| ==> Proper(snapshots[i]))
    && forall i :: 0 <= i < |snapshots| - 1 ==> IsPrefix(snapshots[i], snapshots[i + 1])
  }

  /** What a reader gets from fetch `k` on, each fetch with its own limit; the reader
      stops at the first page without a next cursor. */
  function Read(snapshots: seq<seq<Id>>, limits: seq<Option<int>>, k: nat, cursor: Option<Id>): seq<Id>
    requires |limits| == |snapshots|
    decreases |snapshots| - k
  {
    if k >= |snapshots| then []
    else
      var page := ListMessages(snapshots[k], cursor, limits[k]);
      if page.None? then []
      else page.value.messages
           + if page.value.nextCursor.None? then [] else Read(snapshots, limits, k + 1, page.value.nextCursor)
  }

  lemma PrefixPosition(a: seq<Id>, b: seq<Id>, cursor: Option<Id>)
    requires Proper(a) && Proper(b) && IsPrefix(a, b) && HasCursor(cursor) && cursor.value in a
    ensures cursor.value in b && Position(b, cursor) == Position(a, cursor)
  {
    var i := IndexOf(a, cursor.value);
    assert b[i] == a[i];
    IndexIsUnique(b, i);
  }

  lemma {:induction false} SnapshotIsPrefix(snapshots: seq<seq<Id>>, k: nat)
    requires Growing(snapshots) && k < |snapshots|
    ensures IsPrefix(snapshots[k], snapshots[|snapshots| - 1])
    decreases |snapshots| - k
  {
    if k < |snapshots| - 1 {
      SnapshotIsPrefix(snapshots, k + 1);
      PrefixOfPrefix(snapshots[k], snapshots[k + 1], snapshots[|snapshots| - 1]);
    }
  }

  lemma PrefixOfPrefix(a: seq<Id>, b: seq<Id>, c: seq<Id>)
    requires IsPrefix(a, b) && IsPrefix(b, c)
    ensures IsPrefix(a, c)
  {
    assert c[..|a|] == c[..|b|][..|a|];
  }

  /** `got` is the piece of the messages that starts at `start`. */
  predicate IsPiece(got: seq<Id>, messages: seq<Id>, start: nat) {
    start + |got| <= |messages| && got == messages[start..start + |got|]
  }

  /** Messages added between the fetches are neither skipped nor repeated: what was read
      is a gap-free piece of the last snapshot, starting right after the cursor. */
  lemma {:induction false} ReadIsGapFree(snapshots: seq<seq<Id>>, limits: seq<Option<int>>, k: nat, cursor: Option<Id>)
    requires |limits| == |snapshots| && k < |snapshots| && Growing(snapshots)
    requires HasCursor(cursor) ==> cursor.value in snapshots[k]
    ensures IsPiece(Read(snapshots, limits, k, cursor), snapshots[|snapshots| - 1], Position(snapshots[k], cursor))
    decreases |snapshots| - k
  {
    var start, last := Position(snapshots[k], cursor), snapshots[|snapshots| - 1];
    var page := PageOfLast(snapshots, k, cursor, limits[k]);
    if page.nextCursor.Some? && k + 1 < |snapshots| {
      PrefixPosition(snapshots[k], snapshots[k + 1], page.nextCursor);
      ReadIsGapFree(snapshots, limits, k + 1, page.nextCursor);
      PiecesFollow(page.messages, Read(snapshots, limits, k + 1, page.nextCursor), last, start);
    } else {
      assert page.messages + [] == page.messages;
    }
  }

  /** A page of any snapshot is a piece of the last one. */
  lemma PageOfLast(snapshots: seq<seq<Id>>, k: nat, cursor: Option<Id>, asked: Option<int>) returns (page: Page)
    requires k < |snapshots| && Growing(snapshots)
    requires HasCursor(cursor) ==> cursor.value in snapshots[k]
    ensures ListMessages(snapshots[k], cursor, asked) == Some(page)
    ensures IsPiece(page.messages, snapshots[|snapshots| - 1], Position(snapshots[k], cursor))
    ensures page.nextCursor.Some? ==>
      HasCursor(page.nextCursor) && page.nextCursor.value in snapshots[k]
      && Position(snapshots[k], page.nextCursor) == Position(snapshots[k], cursor) + |page.messages|
  {
    var end;
    page, end := PageIs(snapshots[k], cursor, asked);
    SnapshotIsPrefix(snapshots, k);
    PieceOfPrefix(snapshots[k], snapshots[|snapshots| - 1], Position(snapshots[k], cursor), end);
  }

  lemma PiecesFollow(a: seq<Id>, b: seq<Id>, messages: seq<Id>, start: nat)
    requires IsPiece(a, messages, start) && IsPiece(b, messages, start + |a|)
    ensures IsPiece(a + b, messages, start)
  {
  }

  lemma PieceOfPrefix(a: seq<Id>, b: seq<Id>, start: nat, end: nat)
    requires IsPrefix(a, b) && start <= end <= |a|
    ensures a[start..end] == b[start..end]
  {
    assert a[start..end] == b[..|a|][start..end];
  }

  /** Read from the start, it is a prefix of the session as it last was. */
  lemma ReadIsPrefix(snapshots: seq<seq<Id>>, limits: seq<Option<int>>)
    requires |limits| == |snapshots| > 0 && Growing(snapshots)
    ensures IsPrefix(Read(snapshots, limits, 0, None), snapshots[|snapshots| - 1])
  {
    ReadIsGapFree(snapshots, limits, 0, None);
  }
}
