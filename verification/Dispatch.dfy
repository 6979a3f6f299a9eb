/**
 Sending a message: one branch tree whose stored message, stored decision, context row,
 audit row and event stream must agree.
 */
module Dispatch {
  import opened Prelude
  import opened Answers
  import opened Collecting
  import opened MessageStore
  import opened Routing
  import Retrieval

  /** The session's state after a message flow without a pending decision. */
  function AfterMessageFlow(plan: Plan): TaskState {
    if plan.decision == Clarify then WaitingClarification else TaskCompleted
  }

  // ---------------------------------------------------- What is stored about a message

  /** The rows are there under these ids, all different. */
  ghost predicate Stored(rows: map<nat, Row>, ids: seq<nat>, wanted: seq<Row>) {
    && |ids| == |wanted|
    && (forall i, j :: 0 <= i < j < |ids| ==> ids[i] != ids[j])
    && forall i :: 0 <= i < |ids| ==> ids[i] in rows && rows[ids[i]] == wanted[i]
  }

  /** What is stored before a decision: a retrieval run, its candidates and evidence. */
  datatype Gathered = Gathered(runId: Option<nat>, candidateIds: seq<nat>, evidence: seq<nat>)

  /** The evidence refers to the outcome's chunks, and a run that ended has a row for every
      candidate and holds the cited evidence. */
  ghost predicate Gathers(rows: map<nat, Row>, messageId: nat, o: Outcome, candidates: seq<Retrieval.Candidate>,
                          g: Gathered, cited: seq<nat>) {
    && Stored(rows, g.evidence, EvidenceRows(messageId, o.attaches))
    && g.runId.Some? == (o.retrieval == Ran)
    && (o.retrieval != Ran ==> g.candidateIds == [])
    && (o.retrieval == Ran ==>
          && g.runId.value in rows
          && rows[g.runId.value] == Run(messageId, if o.attaches == [] then Some(NoEvidence) else None, cited)
          && Stored(rows, g.candidateIds, CandidateRows(messageId, g.runId.value, Retrieval.Ranked(candidates, 2))))
  }

  /** The row is one of those gathered; a retrieval that failed may have left rows behind,
      but a run of it has no evidence. */
  ghost predicate IsGathered(k: nat, row: Row, o: Outcome, g: Gathered) {
    match row
    case Evidence(_, _) => k in g.evidence
    case Run(_, _, selected) => if o.retrieval == Failed then selected == [] else g.runId == Some(k)
    case Candidate(_, _, _) => o.retrieval == Failed || k in g.candidateIds
    case _ => false
  }

  /** Every row about the message is one of those gathered. */
  ghost predicate GatheredOnly(rows: map<nat, Row>, messageId: nat, o: Outcome, g: Gathered) {
    forall k :: k in rows && rows[k].messageId == messageId ==> IsGathered(k, rows[k], o, g)
  }

  function BasisIds(basis: Basis): set<nat> {
    match basis
    case OnItem(i) => {i}
    case OnDecision(d, g, r) => {d, g} + if r.Some? then {r.value} else {}
  }

  /** A waiting decision has its item. Every other has its decision row with a grounding
      check over the cited evidence, and one not to answer an open review item about it. */
  ghost predicate BasisHolds(rows: map<nat, Row>, messageId: nat, o: Outcome, row: AnswerRow) {
    match row.basis
    case OnItem(i) => IsItem(o.status) && i in rows && rows[i] == Item(messageId, o.status)
    case OnDecision(d, g, r) =>
      && !IsItem(o.status) && d in rows && rows[d] == Decision(messageId, o.status, o.reason, g)
      && g in rows && rows[g] == Grounding(messageId, o.status == Answered, row.evidence)
      && r.Some? == o.reason.Some?
      && (r.Some? ==> r.value in rows && rows[r.value] == NewReview(messageId, d, o.reason.value))
  }

  /** All that is stored about the message: what was gathered and what the audit row names
      as the basis of the decision. An answer cites all of its evidence, anything else
      none. */
  ghost predicate Settled(rows: map<nat, Row>, messageId: nat, o: Outcome, candidates: seq<Retrieval.Candidate>, row: AnswerRow) {
    && row.messageId == messageId && row.status == o.status
    && BasisHolds(rows, messageId, o, row)
    && exists g: Gathered ::
         && Gathers(rows, messageId, o, candidates, g, row.evidence)
         && row.runId == g.runId
         && row.evidence == (if o.status == Answered then g.evidence else [])
         && forall k :: k in rows && rows[k].messageId == messageId ==> IsGathered(k, rows[k], o, g) || k in BasisIds(row.basis)
  }

  /** Exactly one decision row is about the message unless it waits on an item, and then
      none is; so too for grounding checks. Exactly one review item is about it when there is
      a reason not to answer, and none otherwise. All evidence under an answer is cited. */
  ghost predicate DecidedOnce(rows: map<nat, Row>, messageId: nat, o: Outcome, row: AnswerRow) {
    && row.basis.OnItem? == IsItem(o.status)
    && (forall k :: k in rows && rows[k].messageId == messageId && rows[k].Item? <==> row.basis == OnItem(k))
    && (forall k :: k in rows && rows[k].messageId == messageId && rows[k].Decision? <==>
          row.basis.OnDecision? && row.basis.decisionId == k)
    && (forall k :: k in rows && rows[k].messageId == messageId && rows[k].Grounding? <==>
          row.basis.OnDecision? && row.basis.groundingId == k)
    && (forall k :: k in rows && rows[k].messageId == messageId && rows[k].Review? <==>
          row.basis.OnDecision? && row.basis.reviewId == Some(k))
    && (row.basis.OnDecision? ==> row.basis.reviewId.Some? == o.reason.Some?)
    && (o.status == Answered ==>
          forall k :: k in rows && rows[k].messageId == messageId && rows[k].Evidence? <==> k in row.evidence)
  }

  lemma SettledOnce(rows: map<nat, Row>, messageId: nat, o: Outcome, candidates: seq<Retrieval.Candidate>, row: AnswerRow)
    requires Settled(rows, messageId, o, candidates, row)
    ensures DecidedOnce(rows, messageId, o, row)
  {
  }

  /** Everything settled is what the inputs call for. */
  lemma SettledIsRight(e: Env, rows: map<nat, Row>, messageId: nat, row: AnswerRow)
    requires Settled(rows, messageId, Route(e), e.candidates, row)
    ensures RightStatus(e, row.status) && RightBasis(e, rows, messageId, row)
    ensures RightEvidence(e, rows, messageId, row) && RightRun(e, rows, messageId, row)
  {
    RouteIsRight(e);
    if row.basis.OnDecision? && Route(e).reason.Some? {
      ReviewIsRight(messageId, row.basis.decisionId, Route(e).reason.value);
    }
    GatheredIsRight(e, rows, messageId, row);
  }

  lemma GatheredIsRight(e: Env, rows: map<nat, Row>, messageId: nat, row: AnswerRow)
    requires Settled(rows, messageId, Route(e), e.candidates, row)
    ensures RightEvidence(e, rows, messageId, row) && RightRun(e, rows, messageId, row)
  {
    RouteIsRight(e);
    var o := Route(e);
    var g: Gathered :| Gathers(rows, messageId, o, e.candidates, g, row.evidence) && row.runId == g.runId
                       && row.evidence == if row.status == Answered then g.evidence else [];
    EvidenceIsRight(e, rows, messageId, o, g, row);
    RunIsRight(e, rows, messageId, o, g, row);
  }

  lemma EvidenceIsRight(e: Env, rows: map<nat, Row>, messageId: nat, o: Outcome, g: Gathered, row: AnswerRow)
    requires Stored(rows, g.evidence, EvidenceRows(messageId, o.attaches))
    requires row.status == Answered ==> o.attaches == Citable(e)
    requires row.evidence == if row.status == Answered then g.evidence else []
    ensures RightEvidence(e, rows, messageId, row)
  {
  }

  lemma RunIsRight(e: Env, rows: map<nat, Row>, messageId: nat, o: Outcome, g: Gathered, row: AnswerRow)
    requires Gathers(rows, messageId, o, e.candidates, g, row.evidence) && row.runId == g.runId
    requires o.retrieval == Ran <==> ByDocuments(e) && !RetrievalBroke(e)
    requires o.retrieval == Ran ==> o.attaches == Citable(e)
    ensures RightRun(e, rows, messageId, row)
  {
    if g.runId.Some? {
      forall i | 0 <= i < |e.candidates|
        ensures HasCandidate(e, rows, messageId, g.runId.value, i)
      {
        assert rows[g.candidateIds[i]].Candidate?;
      }
    }
  }

  /** All context rows of the session say what it waits for. */
  ghost predicate RightTasks(e: Env, contexts: map<nat, Context>, sessionId: nat) {
    forall k :: k in contexts && contexts[k].sessionId == sessionId ==> RightTask(e, contexts[k].task)
  }

  ghost predicate RightEvents(e: Env, events: seq<Event>, row: AnswerRow) {
    exists datas :: && RightData(e, datas, row.status, ItemOf(row.basis), row.evidence)
                    && |events| == |datas| && forall i :: 0 <= i < |events| ==> events[i].data == datas[i]
  }

  lemma EventsAreRight(e: Env, rows: map<nat, Row>, messageId: nat, row: AnswerRow)
    requires Settled(rows, messageId, Route(e), e.candidates, row)
    ensures RightEvents(e, StreamOf(messageId, Route(e).stream, Route(e).status, ItemOf(row.basis), row.evidence), row)
  {
    GatheredIsRight(e, rows, messageId, row);
    RouteIsRight(e);
    StreamIsRight(e, ItemOf(row.basis), row.evidence);
  }

  ghost predicate NothingStored(rows: map<nat, Row>, messageId: nat) {
    forall k :: k in rows ==> rows[k].messageId != messageId
  }

  /** The pending assistant message of a send that has not decided anything. */
  ghost predicate Awaits(t: Tables, sessionId: nat, messageId: nat) {
    messageId in t.messages && t.messages[messageId] == Message(sessionId, true, true, Some(NoAnswer))
  }

  /** The steps changed nothing about other messages and sessions. */
  ghost predicate Apart(before: Tables, after: Tables, sessionId: nat, messageId: nat) {
    && OthersKept(before.messages, after.messages, messageId)
    && OtherSessionsKept(before.contexts, after.contexts, sessionId)
    && Grown(before.rows, after.rows, messageId)
  }

  /** The message is completed, the session's state set and the audit row written last. */
  ghost predicate Concluded(before: Tables, after: Tables, sessionId: nat, row: AnswerRow) {
    && after.answers == before.answers + [row]
    && row.messageId in after.messages && after.messages[row.messageId] == Message(sessionId, true, false, Some(row.status))
    && HasTask(after.contexts, sessionId, TaskOf(row.status), row.evidence)
  }

  function ItemOf(basis: Basis): nat {
    if basis.OnItem? then basis.itemId else 0
  }

  /** A send completed with this outcome, or threw and wrote no audit row. */
  ghost predicate Completed(before: Tables, after: Tables, sessionId: nat, messageId: nat, o: Outcome,
                            candidates: seq<Retrieval.Candidate>, events: Option<seq<Event>>) {
    && Apart(before, after, sessionId, messageId)
    && (events.None? ==> after.answers == before.answers)
    && (events.Some? ==>
          && |after.answers| == |before.answers| + 1
          && var row := after.answers[|before.answers|];
          && Concluded(before, after, sessionId, row)
          && Settled(after.rows, messageId, o, candidates, row)
          && events.value == StreamOf(messageId, o.stream, o.status, ItemOf(row.basis), row.evidence))
  }

  /** Only rows about the message were written. */
  ghost predicate RowsOnly(before: Tables, after: Tables, messageId: nat) {
    && after.messages == before.messages && after.contexts == before.contexts && after.answers == before.answers
    && Grown(before.rows, after.rows, messageId)
  }

  lemma MoreRows(a: Tables, b: Tables, c: Tables, messageId: nat)
    requires RowsOnly(a, b, messageId) && RowsOnly(b, c, messageId)
    ensures RowsOnly(a, c, messageId)
  {
  }

  lemma CompletedBefore(a: Tables, b: Tables, c: Tables, sessionId: nat, messageId: nat, o: Outcome,
                        candidates: seq<Retrieval.Candidate>, events: Option<seq<Event>>)
    requires RowsOnly(a, b, messageId) && Completed(b, c, sessionId, messageId, o, candidates, events)
    ensures Completed(a, c, sessionId, messageId, o, candidates, events)
  {
  }

  lemma Completes(a: Tables, b: Tables, c: Tables, sessionId: nat, o: Outcome, candidates: seq<Retrieval.Candidate>,
                  row: AnswerRow, events: seq<Event>)
    requires RowsOnly(a, b, row.messageId) && Apart(b, c, sessionId, row.messageId) && Concluded(b, c, sessionId, row)
    requires Settled(c.rows, row.messageId, o, candidates, row)
    requires events == StreamOf(row.messageId, o.stream, o.status, ItemOf(row.basis), row.evidence)
    ensures Completed(a, c, sessionId, row.messageId, o, candidates, Some(events))
  {
  }

  lemma ThrowCompletes(a: Tables, b: Tables, c: Tables, sessionId: nat, messageId: nat, o: Outcome,
                       candidates: seq<Retrieval.Candidate>)
    requires RowsOnly(a, b, messageId) && Apart(b, c, sessionId, messageId) && c.answers == b.answers
    ensures Completed(a, c, sessionId, messageId, o, candidates, None)
  {
  }

  /** The decision and its grounding check, and a review item when there is a reason. */
  ghost predicate DecisionStored(a: map<nat, Row>, b: map<nat, Row>, messageId: nat, o: Outcome, cited: seq<nat>,
                                 basis: Basis) {
    && basis.OnDecision?
    && basis.reviewId.Some? == o.reason.Some?
    && var filing := Filing(basis.decisionId, basis.groundingId);
    && var grounding := Grounding(messageId, o.status == Answered, cited);
    && var filed := WithFiling(a, filing, grounding, o.status, o.reason);
    && Files(a, filed, filing, grounding, o.status, o.reason)
    && if o.reason.None? then b == filed
       else
         && basis.reviewId.value !in filed
         && b == filed[basis.reviewId.value := NewReview(messageId, basis.decisionId, o.reason.value)]
  }

  lemma DecisionSettles(a: map<nat, Row>, b: map<nat, Row>, messageId: nat, o: Outcome,
                        candidates: seq<Retrieval.Candidate>, g: Gathered, row: AnswerRow)
    requires !IsItem(o.status) && row.messageId == messageId && row.status == o.status
    requires Gathers(a, messageId, o, candidates, g, row.evidence) && GatheredOnly(a, messageId, o, g)
    requires row.runId == g.runId && row.evidence == (if o.status == Answered then g.evidence else [])
    requires DecisionStored(a, b, messageId, o, row.evidence, row.basis)
    ensures Settled(b, messageId, o, candidates, row)
  {
    assert Gathers(b, messageId, o, candidates, g, row.evidence);
  }

  lemma ItemSettles(a: map<nat, Row>, messageId: nat, o: Outcome, candidates: seq<Retrieval.Candidate>, id: nat)
    requires NothingStored(a, messageId) && id !in a
    requires IsItem(o.status) && o.attaches == [] && o.retrieval == NotRun
    ensures Settled(a[id := Item(messageId, o.status)], messageId, o, candidates,
                    AnswerRow(messageId, o.status, [], None, OnItem(id)))
  {
    assert Gathers(a[id := Item(messageId, o.status)], messageId, o, candidates, Gathered(None, [], []), []);
  }

  lemma NothingGathered(rows: map<nat, Row>, messageId: nat, o: Outcome, candidates: seq<Retrieval.Candidate>)
    requires NothingStored(rows, messageId) && o.attaches == [] && o.retrieval == NotRun
    ensures Gathers(rows, messageId, o, candidates, Gathered(None, [], []), [])
    ensures GatheredOnly(rows, messageId, o, Gathered(None, [], []))
  {
  }

  lemma FailedGathered(a: map<nat, Row>, b: map<nat, Row>, messageId: nat, o: Outcome,
                       candidates: seq<Retrieval.Candidate>)
    requires NothingStored(a, messageId) && OnlyRetrieval(a, b) && o.attaches == [] && o.retrieval == Failed
    ensures Gathers(b, messageId, o, candidates, Gathered(None, [], []), [])
    ensures GatheredOnly(b, messageId, o, Gathered(None, [], []))
  {
  }

  lemma RunGathered(a: map<nat, Row>, b: map<nat, Row>, messageId: nat, o: Outcome, e: Env, r: Retrieved)
    requires NothingStored(a, messageId) && Retrieves(a, b, messageId, Retrieval.Ranked(e.candidates, 2), r, e.visible)
    requires SelectedChunks(e) == [] == o.attaches && o.retrieval == Ran
    ensures Gathers(b, messageId, o, e.candidates, Gathered(Some(r.runId), r.candidateIds, []), [])
    ensures GatheredOnly(b, messageId, o, Gathered(Some(r.runId), r.candidateIds, []))
  {
    var wanted := CandidateRows(messageId, r.runId, Retrieval.Ranked(e.candidates, 2));
    CandidatesOnly(a, b, messageId, o, r, Run(messageId, Some(NoEvidence), []), wanted);
    CandidatesStay(a[r.runId := Run(messageId, Some(NoEvidence), [])], b, r.candidateIds, wanted, r.runId);
  }

  lemma CandidatesStay(a: map<nat, Row>, b: map<nat, Row>, ids: seq<nat>, wanted: seq<Row>, k: nat)
    requires Added(a, b, ids, wanted) && k in a
    ensures Stored(b, ids, wanted) && k in b && b[k] == a[k]
  {
  }

  lemma CandidatesOnly(a: map<nat, Row>, b: map<nat, Row>, messageId: nat, o: Outcome, r: Retrieved, run: Row,
                       wanted: seq<Row>)
    requires NothingStored(a, messageId) && r.runId !in a && o.retrieval == Ran && run.Run?
    requires Added(a[r.runId := run], b, r.candidateIds, wanted)
    requires forall row :: row in wanted ==> row.Candidate?
    ensures GatheredOnly(b, messageId, o, Gathered(Some(r.runId), r.candidateIds, []))
  {
    forall k | k in b && b[k].messageId == messageId && k != r.runId
      ensures b[k].Candidate? && k in r.candidateIds
    {
      var i :| 0 <= i < |r.candidateIds| && r.candidateIds[i] == k;
      assert wanted[i] in wanted;
    }
  }

  /** After the evidence of a run is attached and marked. */
  lemma EvidenceGathered(a: map<nat, Row>, b: map<nat, Row>, c: map<nat, Row>, messageId: nat, o: Outcome, e: Env,
                         r: Retrieved, ids: seq<nat>)
    requires NothingStored(a, messageId) && Retrieves(a, b, messageId, Retrieval.Ranked(e.candidates, 2), r, e.visible)
    requires SelectedChunks(e) == o.attaches != [] && o.retrieval == Ran
    requires Added(b, c, ids, EvidenceRows(messageId, o.attaches)) && c[r.runId].Run?
    ensures var d := c[r.runId := c[r.runId].(selectedEvidence := ids)];
            && Gathers(d, messageId, o, e.candidates, Gathered(Some(r.runId), r.candidateIds, ids), ids)
            && GatheredOnly(d, messageId, o, Gathered(Some(r.runId), r.candidateIds, ids))
  {
    var d := c[r.runId := c[r.runId].(selectedEvidence := ids)];
    var wanted := CandidateRows(messageId, r.runId, Retrieval.Ranked(e.candidates, 2));
    var run := Run(messageId, None, []);
    AddedStored(b, c, ids, EvidenceRows(messageId, o.attaches), r.runId, d[r.runId]);
    AddedKeeps(a[r.runId := run], b, c, ids, EvidenceRows(messageId, o.attaches), r.candidateIds, wanted, r.runId, d[r.runId]);
    EvidenceOnly(a, b, c, messageId, o, r, ids, wanted, EvidenceRows(messageId, o.attaches));
  }

  lemma AddedStored(b: map<nat, Row>, c: map<nat, Row>, ids: seq<nat>, rows: seq<Row>, k: nat, row: Row)
    requires Added(b, c, ids, rows) && k in b
    ensures Stored(c[k := row], ids, rows)
  {
  }

  lemma AddedKeeps(a: map<nat, Row>, b: map<nat, Row>, c: map<nat, Row>, ids: seq<nat>, rows: seq<Row>,
                   kept: seq<nat>, wanted: seq<Row>, k: nat, row: Row)
    requires Added(a, b, kept, wanted) && Added(b, c, ids, rows) && k in a
    ensures Stored(c[k := row], kept, wanted)
  {
  }

  lemma EvidenceOnly(a: map<nat, Row>, b: map<nat, Row>, c: map<nat, Row>, messageId: nat, o: Outcome, r: Retrieved,
                     ids: seq<nat>, candidates: seq<Row>, evidence: seq<Row>)
    requires NothingStored(a, messageId) && r.runId !in a && o.retrieval == Ran
    requires Added(a[r.runId := Run(messageId, None, [])], b, r.candidateIds, candidates) && Added(b, c, ids, evidence)
    requires forall row :: row in candidates ==> row.Candidate?
    requires forall row :: row in evidence ==> row.Evidence?
    ensures GatheredOnly(c[r.runId := c[r.runId].(selectedEvidence := ids)], messageId, o,
                         Gathered(Some(r.runId), r.candidateIds, ids))
  {
    var d := c[r.runId := c[r.runId].(selectedEvidence := ids)];
    forall k | k in d && d[k].messageId == messageId && k != r.runId
      ensures (d[k].Candidate? && k in r.candidateIds) || (d[k].Evidence? && k in ids)
    {
      if k in b {
        var i :| 0 <= i < |r.candidateIds| && r.candidateIds[i] == k;
        assert candidates[i] in candidates;
      } else {
        var i :| 0 <= i < |ids| && ids[i] == k;
        assert evidence[i] in evidence;
      }
    }
  }

  lemma EvidenceMarks(b: map<nat, Row>, c: map<nat, Row>, messageId: nat, runId: nat, ids: seq<nat>,
                      chunks: seq<Option<string>>)
    requires runId in b && b[runId].Run? && b[runId].messageId == messageId
    requires Added(b, c, ids, EvidenceRows(messageId, chunks))
    ensures Markable(c, runId, ids) && Grown(b, c[runId := c[runId].(selectedEvidence := ids)], messageId)
  {
    EvidenceGrows(b, c, messageId, ids, chunks);
  }

  lemma RecordGathered(a: map<nat, Row>, messageId: nat, o: Outcome, candidates: seq<Retrieval.Candidate>, id: nat,
                       cited: seq<nat>)
    requires NothingStored(a, messageId) && id !in a && o.attaches == [None] && o.retrieval == NotRun
    ensures var b := a[id := Evidence(messageId, None)];
            && Gathers(b, messageId, o, candidates, Gathered(None, [], [id]), cited)
            && GatheredOnly(b, messageId, o, Gathered(None, [], [id]))
  {
  }

  // ------------------------------------------------------------------ The last steps

  /** Completes the message, sets the session's state, then writes the audit row. */
  method Conclude(store: Store, sessionId: nat, row: AnswerRow, task: TaskState) returns (ok: bool)
    requires store.Valid() && Awaits(store.Contents(), sessionId, row.messageId) && task == TaskOf(row.status)
    modifies store`callsLeft, store`nextId, store`messages, store`contexts, store`answers
    ensures store.Valid() && Apart(old(store.Contents()), store.Contents(), sessionId, row.messageId)
    ensures ok ==> Concluded(old(store.Contents()), store.Contents(), sessionId, row)
    ensures !ok ==> store.answers == old(store.answers)
    ensures old(store.callsLeft).None? ==> ok && store.callsLeft.None?
  {
    ok := store.CompleteMessage(row.messageId, row.status);
    if !ok {
      return;
    }
    ok := store.UpdateOrCreate(sessionId, task, row.evidence);
    if !ok {
      return;
    }
    ok := store.AppendAnswer(row);
  }

  /** Records a safe decision and opens a review item for it. */
  method RecordRefusal(store: Store, messageId: nat, refusal: Refusal, ghost o: Outcome) returns (basis: Option<Basis>)
    requires store.Valid() && messageId in store.messages
    requires o.status == refusal.status != Answered && o.reason == Some(refusal.reason)
    modifies store`callsLeft, store`nextId, store`rows
    ensures store.Valid() && Grown(old(store.rows), store.rows, messageId)
    ensures basis.Some? ==> DecisionStored(old(store.rows), store.rows, messageId, o, [], basis.value)
    ensures old(store.callsLeft).None? ==> basis.Some? && store.callsLeft.None?
  {
    var filing := store.RecordSafeDecision(messageId, refusal.status, Some(refusal.reason));
    if filing.None? {
      return None;
    }
    var review := store.CreateReviewItem(messageId, filing.value.decisionId, refusal.status, refusal.reason);
    if review.None? {
      return None;
    }
    return Some(OnDecision(filing.value.decisionId, filing.value.groundingId, review));
  }

  /** Concludes over a decision that was just stored, and sends. */
  method ConcludeAndSend(store: Store, sessionId: nat, row: AnswerRow, task: TaskState, stream: Stream,
                         ghost before: Tables, ghost o: Outcome, ghost candidates: seq<Retrieval.Candidate>,
                         ghost g: Gathered)
    returns (events: Option<seq<Event>>)
    requires !IsItem(o.status) && row.status == o.status && task == TaskOf(row.status)
    requires stream == o.stream && !stream.ItemStream?
    requires row.runId == g.runId && row.evidence == (if o.status == Answered then g.evidence else [])
    requires store.Valid() && Awaits(store.Contents(), sessionId, row.messageId)
    requires RowsOnly(before, store.Contents(), row.messageId)
    requires Gathers(before.rows, row.messageId, o, candidates, g, row.evidence)
    requires GatheredOnly(before.rows, row.messageId, o, g)
    requires DecisionStored(before.rows, store.rows, row.messageId, o, row.evidence, row.basis)
    modifies store`callsLeft, store`nextId, store`messages, store`contexts, store`answers
    ensures store.Valid() && Completed(before, store.Contents(), sessionId, row.messageId, o, candidates, events)
    ensures old(store.callsLeft).None? ==> events.Some? && store.callsLeft.None?
  {
    DecisionSettles(before.rows, store.rows, row.messageId, o, candidates, g, row);
    var ok := Conclude(store, sessionId, row, task);
    if !ok {
      ThrowCompletes(before, old(store.Contents()), store.Contents(), sessionId, row.messageId, o, candidates);
      return None;
    }
    var sent := BuildEvents(row.messageId, stream, row.status, row.evidence);
    Completes(before, old(store.Contents()), store.Contents(), sessionId, o, candidates, row, sent);
    return Some(sent);
  }

  /** A refusal, its last steps and its events. */
  method RefuseAndSend(store: Store, sessionId: nat, messageId: nat, refusal: Refusal, stream: Stream, plan: Plan,
                       runId: Option<nat>, ghost o: Outcome, ghost candidates: seq<Retrieval.Candidate>,
                       ghost g: Gathered)
    returns (events: Option<seq<Event>>)
    requires plan.decision != Clarify && TaskOf(refusal.status) == TaskCompleted
    requires o.status == refusal.status != Answered && o.reason == Some(refusal.reason)
    requires o.stream == stream && !stream.ItemStream? && runId == g.runId
    requires store.Valid() && Awaits(store.Contents(), sessionId, messageId)
    requires Gathers(store.rows, messageId, o, candidates, g, []) && GatheredOnly(store.rows, messageId, o, g)
    modifies store
    ensures store.Valid()
    ensures Completed(old(store.Contents()), store.Contents(), sessionId, messageId, o, candidates, events)
    ensures old(store.callsLeft).None? ==> events.Some? && store.callsLeft.None?
  {
    var basis := RecordRefusal(store, messageId, refusal, o);
    if basis.None? {
      return None;
    }
    events := ConcludeAndSend(store, sessionId, AnswerRow(messageId, refusal.status, [], runId, basis.value),
                              AfterMessageFlow(plan), stream, old(store.Contents()), o, candidates, g);
  }

  /** The decision over evidence that is there, its last steps and its events. */
  method AnswerAndSend(store: Store, sessionId: nat, messageId: nat, ids: seq<nat>, stream: Stream, plan: Plan,
                       runId: Option<nat>, ghost o: Outcome, ghost candidates: seq<Retrieval.Candidate>,
                       ghost g: Gathered)
    returns (events: Option<seq<Event>>)
    requires plan.decision != Clarify && ids != [] && o.status == Answered && o.reason.None?
    requires o.stream == stream && !stream.ItemStream? && runId == g.runId && ids == g.evidence
    requires store.Valid() && Awaits(store.Contents(), sessionId, messageId)
    requires Gathers(store.rows, messageId, o, candidates, g, ids) && GatheredOnly(store.rows, messageId, o, g)
    modifies store
    ensures store.Valid()
    ensures Completed(old(store.Contents()), store.Contents(), sessionId, messageId, o, candidates, events)
    ensures old(store.callsLeft).None? ==> events.Some? && store.callsLeft.None?
  {
    var status, filing := store.Decide(messageId, plan.decision, ids);
    if filing.None? {
      return None;
    }
    var basis := OnDecision(filing.value.decisionId, filing.value.groundingId, None);
    events := ConcludeAndSend(store, sessionId, AnswerRow(messageId, status, ids, runId, basis), AfterMessageFlow(plan),
                              stream, old(store.Contents()), o, candidates, g);
  }

  // -------------------------------------------------------------------- The branches

  method AskForClarification(store: Store, sessionId: nat, messageId: nat, ghost e: Env)
    returns (events: Option<seq<Event>>)
    requires AsksFirst(e.plan, e.page)
    requires store.Valid() && Awaits(store.Contents(), sessionId, messageId) && NothingStored(store.rows, messageId)
    modifies store
    ensures store.Valid()
    ensures Completed(old(store.Contents()), store.Contents(), sessionId, messageId, Route(e), e.candidates, events)
    ensures old(store.callsLeft).None? ==> events.Some? && store.callsLeft.None?
  {
    ghost var o := Route(e);
    var ok := store.Call();
    if !ok {
      return None;
    }
    NothingGathered(store.rows, messageId, o, e.candidates);
    var filing := store.RecordSafeDecision(messageId, ClarificationRequired, None);
    if filing.None? {
      return None;
    }
    var basis := OnDecision(filing.value.decisionId, filing.value.groundingId, None);
    events := ConcludeAndSend(store, sessionId, AnswerRow(messageId, ClarificationRequired, [], None, basis),
                              WaitingClarification, AnswerStream, old(store.Contents()), o, e.candidates,
                              Gathered(None, [], []));
  }

  /** A medium, high or critical risk: creates a draft, an approval request or an
      escalation, and waits for the decision on it. */
  method RequireItem(store: Store, sessionId: nat, messageId: nat, kind: Status, ghost e: Env)
    returns (events: Option<seq<Event>>)
    requires IsItem(kind) && Route(e) == Outcome(kind, None, ItemStream, [], NotRun)
    requires store.Valid() && Awaits(store.Contents(), sessionId, messageId) && NothingStored(store.rows, messageId)
    modifies store
    ensures store.Valid()
    ensures Completed(old(store.Contents()), store.Contents(), sessionId, messageId, Route(e), e.candidates, events)
    ensures old(store.callsLeft).None? ==> events.Some? && store.callsLeft.None?
  {
    var item := store.Create(Item(messageId, kind));
    if item.None? {
      return None;
    }
    ItemSettles(old(store.rows), messageId, Route(e), e.candidates, item.value);
    var ok := Conclude(store, sessionId, AnswerRow(messageId, kind, [], None, OnItem(item.value)), TaskOf(kind));
    if !ok {
      return None;
    }
    var sent := BuildItemEvents(messageId, kind, item.value);
    return Some(sent);
  }

  /** Answers from documents. The retrieval's own exceptions are caught. */
  method AnswerFromDocuments(store: Store, sessionId: nat, messageId: nat, e: Env)
    returns (events: Option<seq<Event>>)
    requires e.plan.decision != Clarify
    requires store.Valid() && Awaits(store.Contents(), sessionId, messageId) && NothingStored(store.rows, messageId)
    modifies store
    ensures store.Valid()
    ensures Completed(old(store.Contents()), store.Contents(), sessionId, messageId, DocumentRoute(e), e.candidates, events)
    ensures old(store.callsLeft).None? ==> events.Some? && store.callsLeft.None?
  {
    var retrieved := store.RunDocumentRetrieval(sessionId, messageId, e.candidates, Some(2), e.visible,
                                                e.retrievalThrowsAfter);
    if retrieved.None? {
      events := CompleteRetrievalFailure(store, sessionId, messageId, e, old(store.Contents()));
    } else if |retrieved.value.picks| == 0 {
      events := RefuseUnselected(store, sessionId, messageId, e, retrieved.value, old(store.Contents()));
    } else {
      events := AnswerFromCandidates(store, sessionId, messageId, e, retrieved.value, old(store.Contents()));
    }
  }

  method CompleteRetrievalFailure(store: Store, sessionId: nat, messageId: nat, e: Env, ghost before: Tables)
    returns (events: Option<seq<Event>>)
    requires e.plan.decision != Clarify && RetrievalFails(e)
    requires store.Valid() && Awaits(store.Contents(), sessionId, messageId)
    requires NothingStored(before.rows, messageId) && RowsOnly(before, store.Contents(), messageId)
    requires OnlyRetrieval(before.rows, store.rows)
    modifies store
    ensures store.Valid()
    ensures Completed(before, store.Contents(), sessionId, messageId, DocumentRoute(e), e.candidates, events)
    ensures old(store.callsLeft).None? ==> events.Some? && store.callsLeft.None?
  {
    FailedGathered(before.rows, store.rows, messageId, DocumentRoute(e), e.candidates);
    events := RefuseAndSend(store, sessionId, messageId, Refusal(NoAnswer, ToolFailure), AnswerStream, e.plan, None,
                            DocumentRoute(e), e.candidates, Gathered(None, [], []));
    CompletedBefore(before, old(store.Contents()), store.Contents(), sessionId, messageId, DocumentRoute(e), e.candidates, events);
  }

  method RefuseUnselected(store: Store, sessionId: nat, messageId: nat, e: Env, r: Retrieved, ghost before: Tables)
    returns (events: Option<seq<Event>>)
    requires e.plan.decision != Clarify && r.picks == [] && !RetrievalFails(e)
    requires store.Valid() && Awaits(store.Contents(), sessionId, messageId)
    requires NothingStored(before.rows, messageId) && RowsOnly(before, store.Contents(), messageId)
    requires Retrieves(before.rows, store.rows, messageId, Retrieval.Ranked(e.candidates, 2), r, e.visible)
    modifies store
    ensures store.Valid()
    ensures Completed(before, store.Contents(), sessionId, messageId, DocumentRoute(e), e.candidates, events)
    ensures old(store.callsLeft).None? ==> events.Some? && store.callsLeft.None?
  {
    RunGathered(before.rows, store.rows, messageId, DocumentRoute(e), e, r);
    events := RefuseAndSend(store, sessionId, messageId, Refusal(NoAnswer, NoEvidence), AnswerStream, e.plan, Some(r.runId),
                            DocumentRoute(e), e.candidates, Gathered(Some(r.runId), r.candidateIds, []));
    CompletedBefore(before, old(store.Contents()), store.Contents(), sessionId, messageId, DocumentRoute(e), e.candidates, events);
  }

  method AnswerFromCandidates(store: Store, sessionId: nat, messageId: nat, e: Env, r: Retrieved, ghost before: Tables)
    returns (events: Option<seq<Event>>)
    requires e.plan.decision != Clarify && r.picks != [] && !RetrievalFails(e)
    requires store.Valid() && Awaits(store.Contents(), sessionId, messageId)
    requires NothingStored(before.rows, messageId) && RowsOnly(before, store.Contents(), messageId)
    requires Retrieves(before.rows, store.rows, messageId, Retrieval.Ranked(e.candidates, 2), r, e.visible)
    modifies store
    ensures store.Valid()
    ensures Completed(before, store.Contents(), sessionId, messageId, DocumentRoute(e), e.candidates, events)
    ensures old(store.callsLeft).None? ==> events.Some? && store.callsLeft.None?
  {
    var ids := AttachAndMark(store, messageId, e, r, before.rows);
    MoreRows(before, old(store.Contents()), store.Contents(), messageId);
    if ids.None? {
      ThrowCompletes(before, store.Contents(), store.Contents(), sessionId, messageId, DocumentRoute(e), e.candidates);
      return None;
    }
    events := AnswerOver(store, sessionId, messageId, e, r, ids.value, before);
  }

  method AnswerOver(store: Store, sessionId: nat, messageId: nat, e: Env, r: Retrieved, ids: seq<nat>, ghost before: Tables)
    returns (events: Option<seq<Event>>)
    requires e.plan.decision != Clarify && ids != []
    requires DocumentRoute(e).status == Answered && DocumentRoute(e).reason.None? && DocumentRoute(e).stream == AnswerStream
    requires store.Valid() && Awaits(store.Contents(), sessionId, messageId)
    requires RowsOnly(before, store.Contents(), messageId)
    requires Gathers(store.rows, messageId, DocumentRoute(e), e.candidates, Gathered(Some(r.runId), r.candidateIds, ids), ids)
    requires GatheredOnly(store.rows, messageId, DocumentRoute(e), Gathered(Some(r.runId), r.candidateIds, ids))
    modifies store
    ensures store.Valid()
    ensures Completed(before, store.Contents(), sessionId, messageId, DocumentRoute(e), e.candidates, events)
    ensures old(store.callsLeft).None? ==> events.Some? && store.callsLeft.None?
  {
    events := AnswerAndSend(store, sessionId, messageId, ids, AnswerStream, e.plan, Some(r.runId),
                            DocumentRoute(e), e.candidates, Gathered(Some(r.runId), r.candidateIds, ids));
    CompletedBefore(before, old(store.Contents()), store.Contents(), sessionId, messageId, DocumentRoute(e), e.candidates,
                    events);
  }

  /** Attaches the evidence and writes it into the run. */
  method AttachAndMark(store: Store, messageId: nat, e: Env, r: Retrieved, ghost before: map<nat, Row>)
    returns (ids: Option<seq<nat>>)
    requires r.picks != [] && !RetrievalFails(e)
    requires store.Valid() && messageId in store.messages && NothingStored(before, messageId)
    requires Retrieves(before, store.rows, messageId, Retrieval.Ranked(e.candidates, 2), r, e.visible)
    modifies store`callsLeft, store`nextId, store`rows
    ensures store.Valid() && Grown(old(store.rows), store.rows, messageId)
    ensures ids.Some? ==>
      && ids.value != []
      && Gathers(store.rows, messageId, DocumentRoute(e), e.candidates,
                 Gathered(Some(r.runId), r.candidateIds, ids.value), ids.value)
      && GatheredOnly(store.rows, messageId, DocumentRoute(e), Gathered(Some(r.runId), r.candidateIds, ids.value))
    ensures old(store.callsLeft).None? ==> ids.Some? && store.callsLeft.None?
  {
    ids := AttachDocuments(store, messageId, r.runId, r.picks, e.visible, SelectedChunks(e));
    if ids.None? {
      return;
    }
    EvidenceMarks(old(store.rows), store.rows, messageId, r.runId, ids.value, SelectedChunks(e));
    EvidenceGathered(before, old(store.rows), store.rows, messageId, DocumentRoute(e), e, r, ids.value);
    var ok := store.MarkSelectedEvidence(r.runId, ids.value);
    if !ok {
      return None;
    }
  }

  lemma EvidenceGrows(a: map<nat, Row>, b: map<nat, Row>, messageId: nat, ids: seq<nat>, chunks: seq<Option<string>>)
    requires Added(a, b, ids, EvidenceRows(messageId, chunks))
    ensures Grown(a, b, messageId)
  {
    forall k | k in b && k !in a
      ensures b[k].messageId == messageId
    {
      var i :| 0 <= i < |ids| && ids[i] == k;
    }
  }

  lemma PickAttachable(a: map<nat, Row>, b: map<nat, Row>, messageId: nat, runId: nat, p: Pick, ids: seq<nat>,
                       wanted: seq<Row>, visible: (string, string) -> bool)
    requires Picked(p, a, runId, visible) && Added(a, b, ids, wanted)
    requires runId in a && a[runId].Run? && a[runId].messageId == messageId
    ensures p.candidate.chunkId.Some? && p.candidate.documentId.Some?
    ensures Attachable(b, messageId, runId, p.id, p.candidate.documentId.value, p.candidate.chunkId.value, visible)
  {
  }

  method AttachPick(store: Store, messageId: nat, runId: nat, picks: seq<Pick>, i: nat, visible: (string, string) -> bool,
                    ghost chunks: seq<Option<string>>, ghost found: seq<nat>, ghost before: map<nat, Row>)
    returns (id: Option<nat>)
    requires store.Valid() && messageId in store.messages
    requires runId in before && before[runId].Run? && before[runId].messageId == messageId
    requires i < |picks| && PicksAre(picks, before, runId, visible, chunks)
    requires Added(before, store.rows, found, EvidenceRows(messageId, chunks[..i]))
    modifies store`callsLeft, store`nextId, store`rows
    ensures store.Valid() && Grown(old(store.rows), store.rows, messageId)
    ensures id.Some? ==> Added(before, store.rows, found + [id.value], EvidenceRows(messageId, chunks[..i + 1]))
    ensures id.None? ==> store.rows == old(store.rows)
    ensures old(store.callsLeft).None? ==> id.Some? && store.callsLeft.None?
  {
    var c := picks[i].candidate;
    assert Picked(picks[i], before, runId, visible) && c.chunkId == chunks[i];
    PickAttachable(before, store.rows, messageId, runId, picks[i], found, EvidenceRows(messageId, chunks[..i]), visible);
    id := store.AttachDocumentChunk(messageId, runId, picks[i].id, c.documentId.value, c.chunkId.value, visible);
    if id.Some? {
      EvidenceRowsNext(messageId, chunks, i);
      AddedNext(before, old(store.rows), found, EvidenceRows(messageId, chunks[..i]), id.value, Evidence(messageId, c.chunkId));
    }
  }

  lemma EvidenceRowsNext(messageId: nat, chunks: seq<Option<string>>, i: nat)
    requires i < |chunks|
    ensures EvidenceRows(messageId, chunks[..i + 1]) == EvidenceRows(messageId, chunks[..i]) + [Evidence(messageId, chunks[i])]
  {
  }

  /** One evidence reference per selected candidate that names a chunk and a document. */
  method AttachDocuments(store: Store, messageId: nat, runId: nat, picks: seq<Pick>, visible: (string, string) -> bool,
                         ghost chunks: seq<Option<string>>)
    returns (ids: Option<seq<nat>>)
    requires store.Valid() && messageId in store.messages
    requires runId in store.rows && store.rows[runId].Run? && store.rows[runId].messageId == messageId
    requires PicksAre(picks, store.rows, runId, visible, chunks)
    modifies store`callsLeft, store`nextId, store`rows
    ensures store.Valid() && Grown(old(store.rows), store.rows, messageId)
    ensures ids.Some? ==> Added(old(store.rows), store.rows, ids.value, EvidenceRows(messageId, chunks))
    ensures old(store.callsLeft).None? ==> ids.Some? && store.callsLeft.None?
  {
    var found: seq<nat> := [];
    for i := 0 to |picks|
      invariant store.Valid()
      invariant Added(old(store.rows), store.rows, found, EvidenceRows(messageId, chunks[..i]))
      invariant old(store.callsLeft).None? ==> store.callsLeft.None?
    {
      EvidenceGrows(old(store.rows), store.rows, messageId, found, chunks[..i]);
      var c := picks[i].candidate;
      if c.chunkId.Some? && c.chunkId.value != "" && c.documentId.Some? && c.documentId.value != "" {
        var id := AttachPick(store, messageId, runId, picks, i, visible, chunks, found, old(store.rows));
        if id.None? {
          return None;
        }
        found := found + [id.value];
      }
    }
    assert chunks[..|picks|] == chunks;
    EvidenceGrows(old(store.rows), store.rows, messageId, found, chunks);
    return Some(found);
  }

  /** Answers from the read-only tool. */
  method AnswerFromTool(store: Store, sessionId: nat, messageId: nat, e: Env) returns (events: Option<seq<Event>>)
    requires e.plan.decision != Clarify
    requires store.Valid() && Awaits(store.Contents(), sessionId, messageId) && NothingStored(store.rows, messageId)
    modifies store
    ensures store.Valid()
    ensures Completed(old(store.Contents()), store.Contents(), sessionId, messageId, ToolRoute(e), e.candidates, events)
    ensures old(store.callsLeft).None? ==> events.Some? && store.callsLeft.None?
  {
    var ok := store.Call();
    if !ok {
      return None;
    }
    var lifecycle := e.runtime.lifecycle;
    if lifecycle != CallCompleted || !ToolHasEvidence(e.runtime) {
      NothingGathered(store.rows, messageId, ToolRoute(e), e.candidates);
      var refusal := PostRuntimeGate(lifecycle, 0);
      events := RefuseAndSend(store, sessionId, messageId, refusal.value, ToolStream(lifecycle), e.plan, None,
                              ToolRoute(e), e.candidates, Gathered(None, [], []));
      return;
    }
    events := AnswerFromRecord(store, sessionId, messageId, e);
  }

  method AnswerFromRecord(store: Store, sessionId: nat, messageId: nat, e: Env) returns (events: Option<seq<Event>>)
    requires e.plan.decision != Clarify && e.runtime.lifecycle == CallCompleted && ToolHasEvidence(e.runtime)
    requires store.Valid() && Awaits(store.Contents(), sessionId, messageId) && NothingStored(store.rows, messageId)
    modifies store
    ensures store.Valid()
    ensures Completed(old(store.Contents()), store.Contents(), sessionId, messageId, ToolRoute(e), e.candidates, events)
    ensures old(store.callsLeft).None? ==> events.Some? && store.callsLeft.None?
  {
    var id := store.AttachRecord(messageId);
    if id.None? {
      return None;
    }
    ghost var mid, g := store.Contents(), Gathered(None, [], [id.value]);
    var conflict := ConflictGate(e.hasConflict);
    if conflict.Some? {
      RecordGathered(old(store.rows), messageId, ToolRoute(e), e.candidates, id.value, []);
      events := RefuseAndSend(store, sessionId, messageId, conflict.value, ToolStream(CallCompleted), e.plan, None,
                              ToolRoute(e), e.candidates, g);
    } else {
      RecordGathered(old(store.rows), messageId, ToolRoute(e), e.candidates, id.value, [id.value]);
      events := AnswerAndSend(store, sessionId, messageId, [id.value], ToolStream(CallCompleted), e.plan, None,
                              ToolRoute(e), e.candidates, g);
    }
    CompletedBefore(old(store.Contents()), mid, store.Contents(), sessionId, messageId, ToolRoute(e), e.candidates, events);
  }

  method Answer(store: Store, sessionId: nat, messageId: nat, e: Env) returns (events: Option<seq<Event>>)
    requires store.Valid() && Awaits(store.Contents(), sessionId, messageId) && NothingStored(store.rows, messageId)
    modifies store
    ensures store.Valid()
    ensures Completed(old(store.Contents()), store.Contents(), sessionId, messageId, Route(e), e.candidates, events)
    ensures old(store.callsLeft).None? ==> events.Some? && store.callsLeft.None?
  {
    if AsksFirst(e.plan, e.page) {
      events := AskForClarification(store, sessionId, messageId, e);
    } else if e.plan.risk == Medium {
      events := RequireItem(store, sessionId, messageId, ConfirmationRequired, e);
    } else if e.plan.risk == Critical {
      events := RequireItem(store, sessionId, messageId, EscalationRequired, e);
    } else if e.plan.risk == High {
      events := RequireItem(store, sessionId, messageId, ApprovalRequired, e);
    } else if e.plan.requiresDocuments {
      LateBranchesDoNotClarify(e.plan, e.page);
      events := AnswerFromDocuments(store, sessionId, messageId, e);
    } else {
      LateBranchesDoNotClarify(e.plan, e.page);
      events := AnswerFromTool(store, sessionId, messageId, e);
    }
  }

  /** The steps before the first branch: the user's message, its audit row and the plan,
      then the pending assistant message. */
  method Receive(store: Store, sessionId: nat, e: Env) returns (pending: Option<nat>)
    requires store.Valid()
    modifies store`callsLeft, store`nextId, store`messages
    ensures store.Valid()
    ensures forall k :: k in old(store.messages) ==> k in store.messages && store.messages[k] == old(store.messages)[k]
    ensures pending.Some? ==> pending.value !in old(store.messages) && Awaits(store.Contents(), sessionId, pending.value)
    ensures pending.Some? ==> exists user: nat ::
              && user !in old(store.messages)
              && store.messages == old(store.messages)[user := Message(sessionId, false, false, None)]
                                                      [pending.value := Message(sessionId, true, true, Some(NoAnswer))]
    ensures old(store.callsLeft).None? ==> store.callsLeft.None? && (e.sessionVisible ==> pending.Some?)
  {
    var ok := store.Call();
    if !ok || !e.sessionVisible {
      return None;
    }
    var user := store.CreateMessage(Message(sessionId, false, false, None));
    if user.None? {
      return None;
    }
    ok := store.Call();
    if !ok {
      return None;
    }
    pending := store.CreateMessage(Message(sessionId, true, true, Some(NoAnswer)));
  }

  /** The whole of a send. None means that some step threw. */
  method SendMessage(store: Store, sessionId: nat, e: Env) returns (events: Option<seq<Event>>, ghost messageId: nat)
    requires store.Valid()
    modifies store
    ensures store.Valid()
    ensures events.None? ==> store.answers == old(store.answers)
    ensures forall k :: k in old(store.rows) ==> k in store.rows && store.rows[k] == old(store.rows)[k]
    ensures forall k :: k in old(store.messages) ==> k in store.messages && store.messages[k] == old(store.messages)[k]
    ensures OtherSessionsKept(old(store.contexts), store.contexts, sessionId)
    ensures events.Some? ==>
      && messageId !in old(store.messages)
      && |store.answers| == |old(store.answers)| + 1
      && var row := store.answers[|old(store.answers)|];
      && Concluded(old(store.Contents()), store.Contents(), sessionId, row)
      && Settled(store.rows, messageId, Route(e), e.candidates, row)
      && DecidedOnce(store.rows, messageId, Route(e), row)
      && events.value == StreamOf(messageId, Route(e).stream, Route(e).status, ItemOf(row.basis), row.evidence)
      && ProperStream(events.value, messageId, Final(row.status, row.evidence))
    ensures events.Some? ==>
      && var row := store.answers[|old(store.answers)|];
      && RightStatus(e, row.status) && RightBasis(e, store.rows, messageId, row)
      && RightEvidence(e, store.rows, messageId, row) && RightRun(e, store.rows, messageId, row)
      && RightTasks(e, store.contexts, sessionId)
      && RightEvents(e, events.value, row)
    ensures old(store.callsLeft).None? && e.sessionVisible ==> events.Some?
  {
    messageId := 0;
    var pending := Receive(store, sessionId, e);
    if pending.None? {
      return None, messageId;
    }
    messageId := pending.value;
    events := Answer(store, sessionId, pending.value, e);
    if events.Some? {
      ghost var row := store.answers[|old(store.answers)|];
      SettledOnce(store.rows, messageId, Route(e), e.candidates, row);
      StreamIsProper(messageId, Route(e).stream, Route(e).status, ItemOf(row.basis), row.evidence);
      SettledIsRight(e, store.rows, messageId, row);
      EventsAreRight(e, store.rows, messageId, row);
      RouteIsRight(e);
    }
  }
}
