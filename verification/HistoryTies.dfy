/**
 The order behind the pages. Messages are listed by their creation time alone, so each
 fetch may list messages of the same time in any order.
 */
module HistoryTies {
  import opened Prelude
  import opened Orders
  import opened History

  function Earlier(created: Id -> int): (Id, Id) -> bool {
    (a, b) => created(a) <= created(b)
  }

  /** A possible answer to one fetch: the messages, in the order of their creation. */
  ghost predicate Lists(listing: seq<Id>, messages: seq<Id>, created: Id -> int) {
    multiset(listing) == multiset(messages) && SortedBy(listing, Earlier(created))
  }

  ghost predicate DistinctTimes(messages: seq<Id>, created: Id -> int) {
    forall i, j :: 0 <= i < j < |messages| ==> created(messages[i]) != created(messages[j])
  }

  /** The reader gets to a page without a next cursor. */
  predicate Finishes(snapshots: seq<seq<Id>>, limits: seq<Option<int>>, k: nat, cursor: Option<Id>)
    requires |limits| == |snapshots|
    decreases |snapshots| - k
  {
    k < |snapshots|
    && var page := ListMessages(snapshots[k], cursor, limits[k]);
       page.Some? && (page.value.nextCursor.None? || Finishes(snapshots, limits, k + 1, page.value.nextCursor))
  }

  /** Every reader that reads to the end gets every message, once. */
  ghost predicate AlwaysComplete(messages: seq<Id>, created: Id -> int) {
    forall snapshots: seq<seq<Id>>, limits: seq<Option<int>> ::
      |limits| == |snapshots| && (forall k :: 0 <= k < |snapshots| ==> Lists(snapshots[k], messages, created))
      && Finishes(snapshots, limits, 0, None) ==>
        multiset(Read(snapshots, limits, 0, None)) == multiset(messages)
  }

  // ------------------------------------------------------------------ Distinct times

  lemma TimesTellApart(messages: seq<Id>, created: Id -> int)
    requires DistinctTimes(messages, created)
    ensures TellsApart(Earlier(created), messages)
  {
    forall a, b | a in messages && b in messages && Earlier(created)(a, b) && Earlier(created)(b, a)
      ensures a == b
    {
      var i :| 0 <= i < |messages| && messages[i] == a;
      var j :| 0 <= j < |messages| && messages[j] == b;
    }
  }

  /** With distinct times there is only one listing. */
  lemma OneListing(a: seq<Id>, b: seq<Id>, messages: seq<Id>, created: Id -> int)
    requires DistinctTimes(messages, created) && Lists(a, messages, created) && Lists(b, messages, created)
    ensures a == b
  {
    TimesTellApart(messages, created);
    assert forall x :: x in a ==> x in multiset(messages);
    assert TellsApart(Earlier(created), a);
    SortedUnique(a, b, Earlier(created));
  }

  lemma {:induction false} CountsOnce(s: seq<Id>, x: Id)
    requires forall i, j :: 0 <= i < j < |s| ==> s[i] != s[j]
    ensures multiset(s)[x] == if x in s then 1 else 0
  {
    if s != [] {
      CountsOnce(s[1..], x);
      assert s == [s[0]] + s[1..];
    }
  }

  lemma SameMessages(a: seq<Id>, b: seq<Id>)
    requires Proper(a) && Proper(b) && forall x :: x in a <==> x in b
    ensures multiset(a) == multiset(b)
  {
    forall x
      ensures multiset(a)[x] == multiset(b)[x]
    {
      CountsOnce(a, x);
      CountsOnce(b, x);
    }
  }

  /** No message went away, and every new one is later than all that were there. */
  ghost predicate LaterAdded(a: seq<Id>, b: seq<Id>, created: Id -> int) {
    && (forall x :: x in a ==> x in b)
    && forall x, y :: x in a && y in b && y !in a ==> created(x) < created(y)
  }

  /** Messages created later than all that are there are listed after them. */
  lemma {:induction false} LaterAreAppended(a: seq<Id>, b: seq<Id>, created: Id -> int)
    requires Proper(a) && Proper(b) && DistinctTimes(b, created)
    requires SortedBy(a, Earlier(created)) && SortedBy(b, Earlier(created))
    requires LaterAdded(a, b, created)
    ensures IsPrefix(a, b)
    decreases |b|
  {
    if forall y :: y in b ==> y in a {
      SameMessages(a, b);
      OneListing(a, b, b, created);
    } else {
      var last := |b| - 1;
      LastIsNew(a, b, created);
      assert b == b[..last] + [b[last]];
      LaterAreAppended(a, b[..last], created);
      PrefixOfPrefix(a, b[..last], b);
    }
  }

  lemma LastIsNew(a: seq<Id>, b: seq<Id>, created: Id -> int)
    requires SortedBy(b, Earlier(created)) && exists y :: y in b && y !in a
    requires LaterAdded(a, b, created)
    ensures b != [] && b[|b| - 1] !in a
  {
    var y :| y in b && y !in a;
    var j :| 0 <= j < |b| && b[j] == y;
    if j < |b| - 1 {
      assert Earlier(created)(b[j], b[|b| - 1]);
    }
  }

  /** So with distinct times, and each new message later than those before it, every fetch
      sees the messages of the one before and maybe more. */
  lemma GrowsByTime(snapshots: seq<seq<Id>>, created: Id -> int)
    requires forall i :: 0 <= i < |snapshots| ==>
               Proper(snapshots[i]) && SortedBy(snapshots[i], Earlier(created)) && DistinctTimes(snapshots[i], created)
    requires forall i :: 0 <= i < |snapshots| - 1 ==> LaterAdded(snapshots[i], snapshots[i + 1], created)
    ensures Growing(snapshots)
  {
    forall i | 0 <= i < |snapshots| - 1
      ensures IsPrefix(snapshots[i], snapshots[i + 1])
    {
      LaterAreAppended(snapshots[i], snapshots[i + 1], created);
    }
  }

  /** What one fetch adds. */
  lemma ReadOnce(snapshots: seq<seq<Id>>, limits: seq<Option<int>>, k: nat, cursor: Option<Id>, page: Page)
    requires |limits| == |snapshots| && k < |snapshots| && ListMessages(snapshots[k], cursor, limits[k]) == Some(page)
    ensures page.nextCursor.None? ==> Read(snapshots, limits, k, cursor) == page.messages
    ensures page.nextCursor.Some? ==>
      Read(snapshots, limits, k, cursor) == page.messages + Read(snapshots, limits, k + 1, page.nextCursor)
    ensures Finishes(snapshots, limits, k, cursor) <==>
      page.nextCursor.None? || Finishes(snapshots, limits, k + 1, page.nextCursor)
  {
    assert page.messages + [] == page.messages;
  }

  /** Reading an unchanging listing to its end gives what lies behind the cursor. */
  lemma {:induction false} FinishedRead(listing: seq<Id>, snapshots: seq<seq<Id>>, limits: seq<Option<int>>, k: nat,
                                        cursor: Option<Id>)
    requires |limits| == |snapshots| && Proper(listing)
    requires forall i :: k <= i < |snapshots| ==> snapshots[i] == listing
    requires (HasCursor(cursor) ==> cursor.value in listing) && Finishes(snapshots, limits, k, cursor)
    ensures Read(snapshots, limits, k, cursor) == listing[Position(listing, cursor)..]
    decreases |snapshots| - k
  {
    var page, end := PageIs(listing, cursor, limits[k]);
    ReadOnce(snapshots, limits, k, cursor, page);
    Rest(listing, Position(listing, cursor), end);
    if page.nextCursor.Some? {
      FinishedRead(listing, snapshots, limits, k + 1, page.nextCursor);
    }
  }

  lemma Rest(listing: seq<Id>, start: nat, end: nat)
    requires start <= end <= |listing|
    ensures listing[start..] == listing[start..end] + listing[end..]
    ensures end == |listing| ==> listing[start..] == listing[start..end]
  {
  }

  lemma DistinctComplete(messages: seq<Id>, created: Id -> int)
    requires Proper(messages) && Lists(messages, messages, created) && DistinctTimes(messages, created)
    ensures AlwaysComplete(messages, created)
  {
    forall snapshots: seq<seq<Id>>, limits: seq<Option<int>>
      | |limits| == |snapshots| && (forall k :: 0 <= k < |snapshots| ==> Lists(snapshots[k], messages, created))
        && Finishes(snapshots, limits, 0, None)
      ensures multiset(Read(snapshots, limits, 0, None)) == multiset(messages)
    {
      forall k | 0 <= k < |snapshots|
        ensures snapshots[k] == messages
      {
        OneListing(snapshots[k], messages, messages, created);
      }
      FinishedRead(messages, snapshots, limits, 0, None);
      assert messages[0..] == messages;
    }
  }

  // ----------------------------------------------------------------------------- Ties

  /** The listing with its messages `i` and `i + 1` exchanged. */
  function Swapped(s: seq<Id>, i: nat): (t: seq<Id>)
    requires i + 1 < |s|
    ensures |t| == |s| && multiset(t) == multiset(s)
  {
    s[i := s[i + 1]][i + 1 := s[i]]
  }

  lemma SwappedLists(s: seq<Id>, i: nat, created: Id -> int)
    requires Proper(s) && Lists(s, s, created) && i + 1 < |s| && created(s[i]) == created(s[i + 1])
    ensures Proper(Swapped(s, i)) && Lists(Swapped(s, i), s, created)
  {
    var t := Swapped(s, i);
    assert forall x :: x in t <==> x in multiset(s);
    forall j, k | 0 <= j < k < |t|
      ensures Earlier(created)(t[j], t[k])
    {
      assert Earlier(created)(s[j], s[k]);
      assert j <= i ==> j == i || Earlier(created)(s[j], s[i]);
      assert i + 1 <= k ==> k == i + 1 || Earlier(created)(s[i + 1], s[k]);
    }
  }

  /** Fetches of one message each: the first up to message `i`, the rest after a swap. */
  ghost predicate Swaps(s: seq<Id>, i: nat, snapshots: seq<seq<Id>>, limits: seq<Option<int>>)
    requires i + 1 < |s|
  {
    && |limits| == |snapshots| == i + 1 + |s|
    && (forall k :: 0 <= k <= i ==> snapshots[k] == s)
    && (forall k :: i < k < |snapshots| ==> snapshots[k] == Swapped(s, i))
    && forall k :: 0 <= k < |limits| ==> limits[k] == Some(1)
  }

  /** With enough fetches of one message, the reader gets to the end. */
  lemma {:induction false} EnoughFetches(t: seq<Id>, snapshots: seq<seq<Id>>, limits: seq<Option<int>>, k: nat,
                                         cursor: Option<Id>)
    requires Proper(t) && (HasCursor(cursor) ==> cursor.value in t) && |limits| == |snapshots|
    requires forall j :: k <= j < |snapshots| ==> snapshots[j] == t && limits[j] == Some(1)
    requires k < |snapshots| && |t| - Position(t, cursor) <= |snapshots| - k
    ensures Finishes(snapshots, limits, k, cursor)
    decreases |snapshots| - k
  {
    var page, end := PageIs(t, cursor, Some(1));
    ReadOnce(snapshots, limits, k, cursor, page);
    if page.nextCursor.Some? {
      CursorAdvances(t, cursor, Some(1));
      EnoughFetches(t, snapshots, limits, k + 1, page.nextCursor);
    }
  }

  /** Up to message `i` the reader gets one message after the other. */
  lemma {:induction false} HeadRead(s: seq<Id>, i: nat, snapshots: seq<seq<Id>>, limits: seq<Option<int>>, k: nat,
                                    cursor: Option<Id>)
    requires Proper(s) && i + 1 < |s| && Swaps(s, i, snapshots, limits)
    requires k <= i && (HasCursor(cursor) ==> cursor.value in s) && Position(s, cursor) == k
    ensures Read(snapshots, limits, k, cursor) == s[k..i + 1] + Read(snapshots, limits, i + 1, Some(s[i]))
    ensures Finishes(snapshots, limits, k, cursor) <==> Finishes(snapshots, limits, i + 1, Some(s[i]))
    decreases i - k
  {
    FullPage(s, cursor, Some(1));
    ReadOnce(snapshots, limits, k, cursor, Page(s[k..k + 1], Some(s[k])));
    if k < i {
      HeadRead(s, i, snapshots, limits, k + 1, Some(s[k]));
      HeadJoins(s, i, k, Read(snapshots, limits, i + 1, Some(s[i])));
    }
  }

  lemma HeadJoins(s: seq<Id>, i: nat, k: nat, rest: seq<Id>)
    requires k <= i < |s|
    ensures s[k..k + 1] + (s[k + 1..i + 1] + rest) == s[k..i + 1] + rest
  {
  }

  lemma SwappedPosition(s: seq<Id>, i: nat)
    requires i + 1 < |s| && Proper(Swapped(s, i))
    ensures s[i] in Swapped(s, i) && s[i] != "" && Position(Swapped(s, i), Some(s[i])) == i + 2
    ensures Swapped(s, i)[i + 2..] == s[i + 2..]
  {
    var t := Swapped(s, i);
    assert t[i + 1] == s[i];
    IndexIsUnique(t, i + 1);
  }

  /** Two messages of the same time may be exchanged between two fetches just where a page
      ends; the second one is then never read. */
  lemma TieIsMissed(s: seq<Id>, i: nat, snapshots: seq<seq<Id>>, limits: seq<Option<int>>)
    requires Proper(s) && i + 1 < |s| && Proper(Swapped(s, i)) && Swaps(s, i, snapshots, limits)
    ensures Finishes(snapshots, limits, 0, None)
    ensures Read(snapshots, limits, 0, None) == s[..i + 1] + s[i + 2..]
  {
    SwappedPosition(s, i);
    EnoughFetches(Swapped(s, i), snapshots, limits, i + 1, Some(s[i]));
    FinishedRead(Swapped(s, i), snapshots, limits, i + 1, Some(s[i]));
    HeadRead(s, i, snapshots, limits, 0, None);
  }

  lemma NextToEachOther(s: seq<Id>, created: Id -> int) returns (i: nat)
    requires Lists(s, s, created) && !DistinctTimes(s, created)
    ensures i + 1 < |s| && created(s[i]) == created(s[i + 1])
  {
    var j, k :| 0 <= j < k < |s| && created(s[j]) == created(s[k]);
    i := j;
    assert Earlier(created)(s[j], s[j + 1]);
    assert j + 1 < k ==> Earlier(created)(s[j + 1], s[k]);
  }

  /** A run of fetches in which the second of the two is missed. */
  lemma TieBreaks(messages: seq<Id>, i: nat, created: Id -> int) returns (snapshots: seq<seq<Id>>, limits: seq<Option<int>>)
    requires Proper(messages) && Lists(messages, messages, created)
    requires i + 1 < |messages| && created(messages[i]) == created(messages[i + 1])
    ensures |limits| == |snapshots| && Finishes(snapshots, limits, 0, None)
    ensures forall k :: 0 <= k < |snapshots| ==> Lists(snapshots[k], messages, created)
    ensures Read(snapshots, limits, 0, None) == messages[..i + 1] + messages[i + 2..]
  {
    var n, t := i + 1 + |messages|, Swapped(messages, i);
    SwappedLists(messages, i, created);
    snapshots := seq(n, k => if k <= i then messages else t);
    limits := seq(n, _ => Some(1));
    TieIsMissed(messages, i, snapshots, limits);
  }

  /** Readers always get every message once exactly when no two were created at the same
      time. */
  lemma CompleteIff(messages: seq<Id>, created: Id -> int)
    requires Proper(messages) && Lists(messages, messages, created)
    ensures AlwaysComplete(messages, created) <==> DistinctTimes(messages, created)
  {
    if DistinctTimes(messages, created) {
      DistinctComplete(messages, created);
    } else {
      var i := NextToEachOther(messages, created);
      var snapshots, limits := TieBreaks(messages, i, created);
      var got := Read(snapshots, limits, 0, None);
      assert |multiset(got)| == |got| && |multiset(messages)| == |messages|;
    }
  }
}
