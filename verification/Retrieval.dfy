/** Keyword retrieval: scoring, ranking and the selection of candidates. */
module Retrieval {
  import opened Prelude
  import opened Texts
  import opened Orders
  import opened Collecting

  const DEFAULT_LIMIT := 6
  const DEFAULT_SELECTED_LIMIT := 2

  /** 0.35, in ten-thousandths. */
  const SELECTED_SCORE_THRESHOLD := 3500

  /** A chunk the policy filter lets the caller read. */
  datatype ChunkRow = ChunkRow(id: string, documentId: string, title: string, heading: Option<string>, content: string)

  datatype Candidate = Candidate(
    score: nat, sourceId: string, chunkId: Option<string>, documentId: Option<string>)

  /** The terms of a query; `lower` stands for `toLowerCase`. */
  datatype Query = Query(terms: seq<string>, discriminators: seq<string>, lower: string -> string)

  // --------------------------------------------------------------------- Scoring

  function Haystack(row: ChunkRow, q: Query): string {
    q.lower(row.title + " " + (if row.heading.Some? then row.heading.value else "") + " " + row.content)
  }

  /** How many of the terms occur in the text. */
  function Matched(terms: seq<string>, text: string, lower: string -> string): (n: nat)
    ensures n <= |terms|
  {
    if terms == [] then 0
    else Matched(terms[..|terms| - 1], text, lower)
         + if Contains(text, lower(terms[|terms| - 1])) then 1 else 0
  }

  /** `m / n` rounded to four decimals, in ten-thousandths. */
  function Score(m: nat, n: nat): nat
    requires m <= n
  {
    if n == 0 then 0 else (20000 * m + n) / (2 * n)
  }

  predicate MatchesDiscriminator(q: Query, haystack: string) {
    q.discriminators == [] || exists i :: 0 <= i < |q.discriminators| && Contains(haystack, q.discriminators[i])
  }

  function RowScore(row: ChunkRow, q: Query): nat {
    Score(Matched(q.terms, Haystack(row, q), q.lower), |q.terms|)
  }

  predicate Eligible(row: ChunkRow, q: Query) {
    RowScore(row, q) > 0 && MatchesDiscriminator(q, Haystack(row, q))
  }

  function ToCandidate(row: ChunkRow, q: Query): Option<Candidate> {
    if Eligible(row, q) then Some(Candidate(RowScore(row, q), row.id, Some(row.id), Some(row.documentId))) else None
  }

  function Scorer(q: Query): ChunkRow -> Option<Candidate> {
    row => ToCandidate(row, q)
  }

  // --------------------------------------------------------------------- Ranking

  /** Score descending, then id ascending in the order of `localeCompare`. */
  predicate Before(a: Candidate, b: Candidate, idLe: (string, string) -> bool) {
    a.score > b.score || (a.score == b.score && idLe(a.sourceId, b.sourceId))
  }

  function Ranking(idLe: (string, string) -> bool): (Candidate, Candidate) -> bool {
    (a, b) => Before(a, b, idLe)
  }

  /** Where `slice(0, end)` ends: a negative end counts from the back. */
  function SliceEnd(length: nat, end: int): (n: nat)
    ensures n <= length
  {
    if end >= length then length else if end >= 0 then end else if length + end > 0 then length + end else 0
  }

  function Slice<T>(s: seq<T>, end: int): seq<T> {
    s[..SliceEnd(|s|, end)]
  }

  function Retrieve(rows: seq<ChunkRow>, q: Query, limit: Option<int>, idLe: (string, string) -> bool): seq<Candidate> {
    Slice(Sort(Collect(rows, Scorer(q)), Ranking(idLe)), if limit.Some? then limit.value else DEFAULT_LIMIT)
  }

  function Rerank(candidates: seq<Candidate>, limit: Option<int>, idLe: (string, string) -> bool): seq<Candidate> {
    Slice(Sort(candidates, Ranking(idLe)), if limit.Some? then limit.value else |candidates|)
  }

  // --------------------------------------------------- The run and its selection

  datatype Persisted = Persisted(
    candidate: Candidate, rank: nat, selected: bool)

  predicate Selected(c: Candidate, index: nat, selectedLimit: int) {
    c.score >= SELECTED_SCORE_THRESHOLD && index < selectedLimit
  }

  /** The candidate has a document and a chunk, and both are there; `visible` stands
      for the two lookups. */
  predicate HasParents(c: Candidate, visible: (string, string) -> bool) {
    && c.documentId.Some? && c.documentId.value != "" && c.chunkId.Some? && c.chunkId.value != ""
    && c.sourceId == c.chunkId.value && visible(c.documentId.value, c.chunkId.value)
  }

  predicate AllHaveParents(candidates: seq<Candidate>, visible: (string, string) -> bool) {
    forall i :: 0 <= i < |candidates| ==> HasParents(candidates[i], visible)
  }

  method AssertCandidateParents(candidates: seq<Candidate>, visible: (string, string) -> bool) returns (ok: bool)
    ensures ok <==> AllHaveParents(candidates, visible)
  {
    for i := 0 to |candidates|
      invariant forall k :: 0 <= k < i ==> HasParents(candidates[k], visible)
    {
      if !HasParents(candidates[i], visible) {
        return false;
      }
    }
    return true;
  }

  function SelectedLimit(limit: Option<int>): int {
    if limit.Some? then limit.value else DEFAULT_SELECTED_LIMIT
  }

  /** The candidates with their ranks, counted from 1, and whether they are selected. */
  function Ranked(candidates: seq<Candidate>, selectedLimit: int): (ranked: seq<Persisted>)
    ensures |ranked| == |candidates|
    ensures forall i :: 0 <= i < |ranked| ==>
              ranked[i] == Persisted(candidates[i], i + 1, Selected(candidates[i], i, selectedLimit))
  {
    seq(|candidates|, i requires 0 <= i < |candidates| =>
      Persisted(candidates[i], i + 1, Selected(candidates[i], i, selectedLimit)))
  }

  /** The chunk of a selected candidate. */
  function SelectedChunk(p: Persisted): Option<Option<string>> {
    if p.selected then Some(p.candidate.chunkId) else None
  }

  // ------------------------------------------------------------------ Properties

  lemma QuotientBelow(a: nat, b: nat, k: nat)
    requires b > 0
    ensures a / b < k <==> a < b * k
  {
    var q := a / b;
    assert b * q <= a < b * q + b;
    if q < k {
      MultiplyGrows(b, q + 1, k);
    } else {
      MultiplyGrows(b, k, q);
    }
  }

  lemma MultiplyGrows(b: nat, x: nat, y: nat)
    requires x <= y
    ensures b * x <= b * y
  {
    assert b * (y - x) >= 0;
  }

  /** Scores lie between 0 and 1; 0 means that less than half a ten-thousandth of the
      terms match, and all of them matching means 1. */
  lemma ScoreBounds(m: nat, n: nat)
    requires m <= n && n > 0
    ensures Score(m, n) <= 10000
    ensures Score(m, n) == 0 <==> 20000 * m < n
    ensures m == n ==> Score(m, n) == 10000
  {
    QuotientBelow(20000 * m + n, 2 * n, 10001);
    QuotientBelow(20000 * m + n, 2 * n, 10000);
    QuotientBelow(20000 * m + n, 2 * n, 1);
  }

  lemma RankingOrders(idLe: (string, string) -> bool)
    requires TotalOrder(idLe)
    ensures Connected(Ranking(idLe)) && Transitive(Ranking(idLe))
  {
    var le := Ranking(idLe);
    forall a, b
      ensures le(a, b) || le(b, a)
    {
      assert idLe(a.sourceId, b.sourceId) || idLe(b.sourceId, a.sourceId);
    }
    forall a, b, c | le(a, b) && le(b, c)
      ensures le(a, c)
    {
      if a.score == b.score == c.score {
        assert idLe(a.sourceId, c.sourceId);
      }
    }
  }

  /** Chunk ids are primary keys. */
  ghost predicate DistinctIds(rows: seq<ChunkRow>) {
    forall i, j :: 0 <= i < |rows| && 0 <= j < |rows| && rows[i].id == rows[j].id ==> rows[i] == rows[j]
  }

  lemma CandidatesApart(rows: seq<ChunkRow>, q: Query, idLe: (string, string) -> bool)
    requires TotalOrder(idLe) && DistinctIds(rows)
    ensures TellsApart(Ranking(idLe), Collect(rows, Scorer(q)))
  {
    var le, s := Ranking(idLe), Collect(rows, Scorer(q));
    forall a, b | a in s && b in s && le(a, b) && le(b, a)
      ensures a == b
    {
      var x := CollectFrom(rows, Scorer(q), a);
      var y := CollectFrom(rows, Scorer(q), b);
      assert a.sourceId == b.sourceId;
    }
  }

  /** The order the rows come in does not matter. */
  lemma RowOrderDoesNotMatter(a: seq<ChunkRow>, b: seq<ChunkRow>, q: Query, limit: Option<int>,
                              idLe: (string, string) -> bool)
    requires TotalOrder(idLe) && DistinctIds(a) && multiset(a) == multiset(b)
    ensures Retrieve(a, q, limit, idLe) == Retrieve(b, q, limit, idLe)
  {
    RankingOrders(idLe);
    CandidatesApart(a, q, idLe);
    CollectPermutes(a, b, Scorer(q));
    SortForgets(Collect(a, Scorer(q)), Collect(b, Scorer(q)), Ranking(idLe));
  }

  /** A prefix of a sorted list is sorted, and nothing left out comes before it. */
  lemma TopOfSorted<T(!new)>(s: seq<T>, le: (T, T) -> bool, k: nat)
    requires Connected(le) && Transitive(le) && k <= |s|
    ensures var top := Sort(s, le);
            && |top| == |s| && SortedBy(top[..k], le)
            && multiset(top[..k]) + multiset(top[k..]) == multiset(s)
            && forall i, j :: 0 <= i < k <= j < |s| ==> le(top[i], top[j])
  {
    SortSorts(s, le);
    var top := Sort(s, le);
    assert top == top[..k] + top[k..];
  }

  /** What is returned and what is left out make up the eligible rows; the returned are
      in order, and none left out comes before one returned. */
  lemma ReturnedAreBest(rows: seq<ChunkRow>, q: Query, limit: Option<int>, idLe: (string, string) -> bool)
    returns (omitted: seq<Candidate>)
    requires TotalOrder(idLe)
    ensures var found := Retrieve(rows, q, limit, idLe);
            && multiset(found) + multiset(omitted) == multiset(Collect(rows, Scorer(q)))
            && SortedBy(found, Ranking(idLe))
            && |found| == SliceEnd(|Collect(rows, Scorer(q))|, if limit.Some? then limit.value else DEFAULT_LIMIT)
            && forall a, b :: a in found && b in omitted ==> Before(a, b, idLe)
  {
    var s := Collect(rows, Scorer(q));
    var k := SliceEnd(|s|, if limit.Some? then limit.value else DEFAULT_LIMIT);
    RankingOrders(idLe);
    TopOfSorted(s, Ranking(idLe), k);
    omitted := Sort(s, Ranking(idLe))[k..];
    BeforeOmitted(s, k, idLe);
  }

  lemma BeforeOmitted(s: seq<Candidate>, k: nat, idLe: (string, string) -> bool)
    requires TotalOrder(idLe) && k <= |s|
    ensures |Sort(s, Ranking(idLe))| == |s|
    ensures forall a, b :: a in Sort(s, Ranking(idLe))[..k] && b in Sort(s, Ranking(idLe))[k..] ==> Before(a, b, idLe)
  {
    RankingOrders(idLe);
    TopOfSorted(s, Ranking(idLe), k);
    var top := Sort(s, Ranking(idLe));
    forall a, b | a in top[..k] && b in top[k..]
      ensures Before(a, b, idLe)
    {
      var i :| 0 <= i < k && top[..k][i] == a;
      var j :| 0 <= j < |s| - k && top[k..][j] == b;
      assert Ranking(idLe)(top[i], top[k + j]);
    }
  }

  lemma PartTellsApart(part: seq<Candidate>, s: seq<Candidate>, le: (Candidate, Candidate) -> bool)
    requires TellsApart(le, s) && forall x :: x in part ==> x in s
    ensures TellsApart(le, part)
  {
  }

  /** Reranking what was retrieved changes nothing. */
  lemma RerankKeeps(rows: seq<ChunkRow>, q: Query, limit: Option<int>, idLe: (string, string) -> bool)
    requires TotalOrder(idLe) && DistinctIds(rows)
    ensures var found := Retrieve(rows, q, limit, idLe); Rerank(found, None, idLe) == found
  {
    var found, s := Retrieve(rows, q, limit, idLe), Collect(rows, Scorer(q));
    var omitted := ReturnedAreBest(rows, q, limit, idLe);
    CandidatesApart(rows, q, idLe);
    forall x | x in found
      ensures x in s
    {
      assert x in multiset(found) + multiset(omitted);
    }
    PartTellsApart(found, s, Ranking(idLe));
    RankingOrders(idLe);
    SortOfSortedList(found, Ranking(idLe));
  }

  /** The selected candidates are the first ones: no rank is skipped. */
  lemma SelectedIsPrefix(rows: seq<ChunkRow>, q: Query, limit: Option<int>, idLe: (string, string) -> bool,
                         selectedLimit: int, i: nat, j: nat)
    requires TotalOrder(idLe)
    requires i < j < |Retrieve(rows, q, limit, idLe)|
    requires Selected(Retrieve(rows, q, limit, idLe)[j], j, selectedLimit)
    ensures Selected(Retrieve(rows, q, limit, idLe)[i], i, selectedLimit)
  {
    var found := Retrieve(rows, q, limit, idLe);
    var omitted := ReturnedAreBest(rows, q, limit, idLe);
    assert Ranking(idLe)(found[i], found[j]);
  }

  // ------------------------------------------- What is returned, said of the texts

  /** Title, heading and content in one, in lower case. */
  function RowText(row: ChunkRow, q: Query): string {
    q.lower(row.title + " " + (match row.heading case Some(heading) => heading case None => "") + " " + row.content)
  }

  /** How many terms, in lower case, stand in the row's text. */
  ghost function TermsIn(row: ChunkRow, q: Query): nat {
    CountWhere(q.terms, term => Occurs(RowText(row, q), q.lower(term)))
  }

  /** At least half a ten-thousandth of the terms stand in it, and one of the discriminators
      if there are any. */
  ghost predicate Fits(row: ChunkRow, q: Query) {
    && q.terms != [] && 20000 * TermsIn(row, q) >= |q.terms|
    && (q.discriminators == [] || exists d :: d in q.discriminators && Occurs(RowText(row, q), d))
  }

  /** The row's candidate: its ids, and in ten-thousandths the share of the terms that stand
      in it, to the nearest, a half going up. */
  ghost predicate CandidateOf(c: Candidate, row: ChunkRow, q: Query) {
    && c.sourceId == row.id && c.chunkId == Some(row.id) && c.documentId == Some(row.documentId)
    && var m, n := TermsIn(row, q), |q.terms|;
       2 * n * c.score <= 20000 * m + n < 2 * n * c.score + 2 * n
  }

  /** Has the higher score, or the same and the earlier id. */
  predicate Precedes(a: Candidate, b: Candidate, idLe: (string, string) -> bool) {
    a.score > b.score || (a.score == b.score && idLe(a.sourceId, b.sourceId))
  }

  /** Each of these precedes the candidate. */
  ghost predicate Behind(c: Candidate, found: seq<Candidate>, idLe: (string, string) -> bool) {
    forall r :: r in found ==> Precedes(r, c, idLe)
  }

  /** All of them up to the limit, six unless given; a negative limit counts from the end. */
  predicate UpTo(length: nat, count: nat, limit: Option<int>) {
    match limit
    case None => length == if count <= 6 then count else 6
    case Some(n) => length == if n >= count then count else if n >= 0 then n else if count + n >= 0 then count + n else 0
  }

  lemma {:induction false} MatchedIs(terms: seq<string>, text: string, lower: string -> string)
    ensures Matched(terms, text, lower) == CountWhere(terms, term => Occurs(text, lower(term)))
  {
    if terms != [] {
      MatchedIs(terms[..|terms| - 1], text, lower);
      CountWhereNext(terms, term => Occurs(text, lower(term)));
      OccursIff(text, lower(terms[|terms| - 1]));
    }
  }

  lemma TermsInIs(row: ChunkRow, q: Query)
    ensures TermsIn(row, q) == Matched(q.terms, Haystack(row, q), q.lower)
  {
    MatchedIs(q.terms, Haystack(row, q), q.lower);
    assert RowText(row, q) == Haystack(row, q);
  }

  lemma QuotientIs(a: nat, b: nat, k: nat)
    requires b > 0
    ensures k == a / b <==> b * k <= a < b * k + b
  {
    QuotientBelow(a, b, k);
    QuotientBelow(a, b, k + 1);
    Distributes(b, k);
  }

  lemma Distributes(b: nat, k: nat)
    ensures b * (k + 1) == b * k + b
  {
  }

  lemma DiscriminatorIs(row: ChunkRow, q: Query)
    ensures MatchesDiscriminator(q, Haystack(row, q)) <==>
            q.discriminators == [] || exists d :: d in q.discriminators && Occurs(RowText(row, q), d)
  {
    forall i | 0 <= i < |q.discriminators|
      ensures Contains(Haystack(row, q), q.discriminators[i]) <==> Occurs(RowText(row, q), q.discriminators[i])
    {
      OccursIff(Haystack(row, q), q.discriminators[i]);
    }
  }

  lemma CandidateIs(row: ChunkRow, q: Query)
    ensures Scorer(q)(row).Some? <==> Fits(row, q)
    ensures Fits(row, q) ==> forall c :: CandidateOf(c, row, q) <==> Scorer(q)(row) == Some(c)
  {
    TermsInIs(row, q);
    DiscriminatorIs(row, q);
    if q.terms != [] {
      var m, n := TermsIn(row, q), |q.terms|;
      ScoreBounds(m, n);
      forall c: Candidate
        ensures c.score == Score(m, n) <==> 2 * n * c.score <= 20000 * m + n < 2 * n * c.score + 2 * n
      {
        QuotientIs(20000 * m + n, 2 * n, c.score);
      }
    }
  }

  /** Every candidate returned is that of a row that fits. Every row that fits is returned, or
      its candidate comes after each one returned. They are in order, and as many as fit up
      to the limit. */
  lemma RetrievedAre(rows: seq<ChunkRow>, q: Query, limit: Option<int>, idLe: (string, string) -> bool)
    requires TotalOrder(idLe)
    ensures var found := Retrieve(rows, q, limit, idLe);
            && (forall c :: c in found ==> exists row :: row in rows && Fits(row, q) && CandidateOf(c, row, q))
            && (forall row :: row in rows && Fits(row, q) ==> exists c ::
                  && CandidateOf(c, row, q)
                  && (c in found || Behind(c, found, idLe)))
            && (forall i, j :: 0 <= i < j < |found| ==> Precedes(found[i], found[j], idLe))
            && UpTo(|found|, CountWhere(rows, row => Fits(row, q)), limit)
  {
    var found, s := Retrieve(rows, q, limit, idLe), Collect(rows, Scorer(q));
    var omitted := ReturnedAreBest(rows, q, limit, idLe);
    forall row | row in rows
      ensures Scorer(q)(row).Some? <==> Fits(row, q)
    {
      CandidateIs(row, q);
    }
    CollectedIs(rows, Scorer(q), row => Fits(row, q));
    forall c | c in found
      ensures exists row :: row in rows && Fits(row, q) && CandidateOf(c, row, q)
    {
      ReturnedFits(rows, q, c, found, omitted);
    }
    forall row | row in rows && Fits(row, q)
      ensures exists c :: CandidateOf(c, row, q) && (c in found || Behind(c, found, idLe))
    {
      FitsIsPlaced(rows, q, row, found, omitted, idLe);
    }
    InOrder(found, idLe);
  }

  lemma ReturnedFits(rows: seq<ChunkRow>, q: Query, c: Candidate, found: seq<Candidate>, omitted: seq<Candidate>)
    requires c in found && multiset(found) + multiset(omitted) == multiset(Collect(rows, Scorer(q)))
    ensures exists row :: row in rows && Fits(row, q) && CandidateOf(c, row, q)
  {
    assert c in multiset(found) + multiset(omitted);
    var row := CollectFrom(rows, Scorer(q), c);
    CandidateIs(row, q);
  }

  lemma FitsIsPlaced(rows: seq<ChunkRow>, q: Query, row: ChunkRow, found: seq<Candidate>, omitted: seq<Candidate>,
                     idLe: (string, string) -> bool)
    requires row in rows && Fits(row, q)
    requires multiset(found) + multiset(omitted) == multiset(Collect(rows, Scorer(q)))
    requires forall a, b :: a in found && b in omitted ==> Before(a, b, idLe)
    ensures exists c :: CandidateOf(c, row, q) && (c in found || Behind(c, found, idLe))
  {
    CandidateIs(row, q);
    CollectHas(rows, Scorer(q), row);
    var c := Scorer(q)(row).value;
    IsPlaced(c, Collect(rows, Scorer(q)), found, omitted, idLe);
    assert CandidateOf(c, row, q);
  }

  lemma IsPlaced(c: Candidate, s: seq<Candidate>, found: seq<Candidate>, omitted: seq<Candidate>,
                 idLe: (string, string) -> bool)
    requires c in s && multiset(found) + multiset(omitted) == multiset(s)
    requires forall a, b :: a in found && b in omitted ==> Before(a, b, idLe)
    ensures c in found || Behind(c, found, idLe)
  {
    assert c in multiset(s);
    if c !in found {
      assert c in omitted;
    }
  }

  lemma InOrder(found: seq<Candidate>, idLe: (string, string) -> bool)
    requires SortedBy(found, Ranking(idLe))
    ensures forall i, j :: 0 <= i < j < |found| ==> Precedes(found[i], found[j], idLe)
  {
    forall i, j | 0 <= i < j < |found|
      ensures Precedes(found[i], found[j], idLe)
    {
      assert Ranking(idLe)(found[i], found[j]);
    }
  }
}
