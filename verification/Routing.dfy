/**
 Where a send goes: the branch tree as a table, and the same said of its inputs one answer
 at a time.
 */
module Routing {
  import opened Prelude
  import opened Answers
  import opened Collecting
  import opened MessageStore
  import Retrieval

  datatype Runtime = Runtime(lifecycle: Lifecycle, toolCallId: Option<nat>, hasFields: bool)

  /** What the services outside the model answer: the plan, the page, the retrieval
      provider, the two lookups behind it, the number of rows after which the retrieval
      throws, the read-only tool and the conflict detector. */
  datatype Env = Env(
    sessionVisible: bool, plan: Plan, page: Option<PageContext>,
    candidates: seq<Retrieval.Candidate>, visible: (string, string) -> bool, retrievalThrowsAfter: Option<nat>,
    runtime: Runtime, hasConflict: bool)

  // ------------------------------------------------------------ The decision table

  /** The chunks of the selected candidates, in order. */
  function SelectedChunks(e: Env): seq<Option<string>> {
    Collect(Retrieval.Ranked(e.candidates, Retrieval.SelectedLimit(Some(2))), Retrieval.SelectedChunk)
  }

  predicate RetrievalFails(e: Env) {
    e.retrievalThrowsAfter.Some? || !Retrieval.AllHaveParents(e.candidates, e.visible)
  }

  predicate ToolHasEvidence(r: Runtime) {
    r.hasFields && r.toolCallId.Some?
  }

  datatype RetrievalOutcome = NotRun | Failed | Ran

  /** How a run ends that completes: the decision, the reason not to answer, the events
      before the final one, the chunks its evidence refers to (None: a tool's record) and
      what became of the retrieval. */
  datatype Outcome = Outcome(
    status: Status, reason: Option<NoAnswerReason>, stream: Stream, attaches: seq<Option<string>>,
    retrieval: RetrievalOutcome)

  function Route(e: Env): Outcome {
    if AsksFirst(e.plan, e.page) then Outcome(ClarificationRequired, None, AnswerStream, [], NotRun)
    else if e.plan.risk == Medium then Outcome(ConfirmationRequired, None, ItemStream, [], NotRun)
    else if e.plan.risk == Critical then Outcome(EscalationRequired, None, ItemStream, [], NotRun)
    else if e.plan.risk == High then Outcome(ApprovalRequired, None, ItemStream, [], NotRun)
    else if e.plan.requiresDocuments then DocumentRoute(e)
    else ToolRoute(e)
  }

  function DocumentRoute(e: Env): Outcome {
    if RetrievalFails(e) then Outcome(NoAnswer, Some(ToolFailure), AnswerStream, [], Failed)
    else if SelectedChunks(e) == [] then Outcome(NoAnswer, Some(NoEvidence), AnswerStream, [], Ran)
    else Outcome(Answered, None, AnswerStream, SelectedChunks(e), Ran)
  }

  function ToolRoute(e: Env): Outcome {
    var stream := ToolStream(e.runtime.lifecycle);
    match e.runtime.lifecycle
    case CallBlocked => Outcome(PermissionDenied, Some(DeniedPermission), stream, [], NotRun)
    case CallFailed => Outcome(NoAnswer, Some(ToolFailure), stream, [], NotRun)
    case CallCompleted =>
      if !ToolHasEvidence(e.runtime) then Outcome(NoAnswer, Some(NoEvidence), stream, [], NotRun)
      else if e.hasConflict then Outcome(NoAnswer, Some(EvidenceConflict), stream, [None], NotRun)
      else Outcome(Answered, None, stream, [None], NotRun)
  }

  /** A low-risk plan that asks for clarification never gets past the first gate, so the
      later branches never see one. */
  lemma LateBranchesDoNotClarify(plan: Plan, page: Option<PageContext>)
    requires plan.risk == Low && !AsksFirst(plan, page)
    ensures plan.decision != Clarify && plan.confidence >= 0.7 && plan.needs == []
  {
  }

  /** The decision is about a draft, a request or an escalation that now waits. */
  predicate IsItem(status: Status) {
    status == ConfirmationRequired || status == ApprovalRequired || status == EscalationRequired
  }

  // --------------------------------------------------------- Said of the inputs alone

  /** The first blocking need is one that a single entity on the page would meet. */
  predicate BlocksOnEntity(needs: seq<Need>) {
    exists k :: && 0 <= k < |needs| && needs[k].blocking
                && (forall j :: 0 <= j < k ==> !needs[j].blocking)
                && (|| needs[k].reason == MissingPageContext || needs[k].reason == MultipleCandidates
                    || needs[k].reason == AmbiguousReference || needs[k].reason == EntityConflict)
  }

  /** The user must be asked before anything is done. */
  predicate MustAsk(e: Env) {
    if e.plan.risk == Low then e.plan.decision == Clarify || e.plan.confidence < 0.7 || e.plan.needs != []
    else BlocksOnEntity(e.plan.needs) && (e.page.None? || !e.page.value.hasEntity || e.page.value.selectedRows > 1)
  }

  predicate ByDocuments(e: Env) {
    !MustAsk(e) && e.plan.risk == Low && e.plan.requiresDocuments
  }

  predicate ByTool(e: Env) {
    !MustAsk(e) && e.plan.risk == Low && !e.plan.requiresDocuments
  }

  /** No chunk and document stand behind the candidate. */
  predicate Orphan(c: Retrieval.Candidate, visible: (string, string) -> bool) {
    || c.chunkId.None? || c.chunkId.value == "" || c.documentId.None? || c.documentId.value == ""
    || c.sourceId != c.chunkId.value || !visible(c.documentId.value, c.chunkId.value)
  }

  predicate RetrievalBroke(e: Env) {
    e.retrievalThrowsAfter.Some? || exists i :: 0 <= i < |e.candidates| && Orphan(e.candidates[i], e.visible)
  }

  /** One of the first two candidates, and its score is at least 0.35. */
  predicate Reaches(e: Env, i: int) {
    0 <= i < |e.candidates| && i < 2 && e.candidates[i].score >= 3500
  }

  /** The tool completed with fields and an id. */
  predicate ToolEvidence(e: Env) {
    e.runtime.lifecycle == CallCompleted && e.runtime.hasFields && e.runtime.toolCallId.Some?
  }

  /** Which status a completed send has. */
  predicate RightStatus(e: Env, status: Status) {
    && (status == ClarificationRequired <==> MustAsk(e))
    && (status == ConfirmationRequired <==> !MustAsk(e) && e.plan.risk == Medium)
    && (status == ApprovalRequired <==> !MustAsk(e) && e.plan.risk == High)
    && (status == EscalationRequired <==> !MustAsk(e) && e.plan.risk == Critical)
    && (status == Answered <==>
          || (ByDocuments(e) && !RetrievalBroke(e) && (Reaches(e, 0) || Reaches(e, 1)))
          || (ByTool(e) && ToolEvidence(e) && !e.hasConflict))
    && (status == PermissionDenied <==> ByTool(e) && e.runtime.lifecycle == CallBlocked)
    && status != ToolFailed
  }

  /** Which reason not to answer it has, if any. */
  predicate RightReason(e: Env, reason: Option<NoAnswerReason>) {
    && (reason == Some(ToolFailure) <==>
          (ByDocuments(e) && RetrievalBroke(e)) || (ByTool(e) && e.runtime.lifecycle == CallFailed))
    && (reason == Some(NoEvidence) <==>
          || (ByDocuments(e) && !RetrievalBroke(e) && !Reaches(e, 0) && !Reaches(e, 1))
          || (ByTool(e) && e.runtime.lifecycle == CallCompleted && !ToolEvidence(e)))
    && (reason == Some(DeniedPermission) <==> ByTool(e) && e.runtime.lifecycle == CallBlocked)
    && (reason == Some(EvidenceConflict) <==> ByTool(e) && ToolEvidence(e) && e.hasConflict)
  }

  /** What the session waits for afterwards. */
  predicate RightTask(e: Env, task: TaskState) {
    && (task == WaitingClarification <==> MustAsk(e))
    && (task == WaitingConfirmation <==> !MustAsk(e) && e.plan.risk == Medium)
    && (task == WaitingApproval <==> !MustAsk(e) && e.plan.risk == High)
    && (task == WaitingEscalation <==> !MustAsk(e) && e.plan.risk == Critical)
    && (task == TaskCompleted <==> !MustAsk(e) && e.plan.risk == Low)
  }

  /** What the events carry, in order. */
  predicate RightData(e: Env, datas: seq<Data>, status: Status, item: nat, evidence: seq<nat>) {
    if MustAsk(e) then datas == [AnswerDelta, Final(ClarificationRequired, [])]
    else match e.plan.risk
         case Medium => datas == [ItemRequired(ConfirmationRequired, item), Final(ConfirmationRequired, [])]
         case High => datas == [ItemRequired(ApprovalRequired, item), Final(ApprovalRequired, [])]
         case Critical => datas == [ItemRequired(EscalationRequired, item), Final(EscalationRequired, [])]
         case Low =>
           if e.plan.requiresDocuments then datas == [AnswerDelta, Final(status, evidence)]
           else match e.runtime.lifecycle
                case CallBlocked => datas == [ToolBlocked, AnswerDelta, Final(PermissionDenied, [])]
                case CallFailed => datas == [ToolStarted, ToolFailedEvent, AnswerDelta, Final(NoAnswer, [])]
                case CallCompleted =>
                  if ToolEvidence(e) && !e.hasConflict then
                    datas == [ToolStarted, ToolCompleted, EvidenceAttached(evidence), AnswerDelta, Final(Answered, evidence)]
                  else datas == [ToolStarted, ToolCompleted, AnswerDelta, Final(NoAnswer, [])]
  }

  /** An open item about the decision, filed by the reason. */
  predicate RightReview(review: Row, messageId: nat, decisionId: nat, reason: NoAnswerReason) {
    && review.Review? && review.messageId == messageId && review.sourceId == decisionId && review.open
    && (review.sourceType == ToolFailureSource <==> reason == ToolFailure)
    && (review.sourceType == NoAnswerSource <==> reason == NoEvidence)
    && (review.sourceType == PermissionMappingIssue <==> reason == DeniedPermission)
    && (review.sourceType == MissingEvidence <==> reason == EvidenceConflict)
    && (review.urgent <==> reason == DeniedPermission || reason == ToolFailure)
  }

  /** The item waited for, or the decision with its grounding check and review item. */
  ghost predicate RightBasis(e: Env, rows: map<nat, Row>, messageId: nat, row: AnswerRow) {
    match row.basis
    case OnItem(i) => !MustAsk(e) && e.plan.risk != Low && i in rows && rows[i] == Item(messageId, row.status)
    case OnDecision(d, g, r) =>
      && (MustAsk(e) || e.plan.risk == Low)
      && d in rows && rows[d].Decision? && rows[d].messageId == messageId && rows[d].status == row.status
      && RightReason(e, rows[d].reason) && rows[d].groundingId == g
      && g in rows && rows[g] == Grounding(messageId, row.status == Answered, row.evidence)
      && r.Some? == rows[d].reason.Some?
      && (r.Some? ==> r.value in rows && RightReview(rows[r.value], messageId, d, rows[d].reason.value))
  }

  /** What an answer cites: the chunks of the candidates that reach the threshold, in order,
      or the tool's record. */
  function Citable(e: Env): seq<Option<string>> {
    if ByDocuments(e) then
      (if Reaches(e, 0) then [e.candidates[0].chunkId] else []) + if Reaches(e, 1) then [e.candidates[1].chunkId] else []
    else [None]
  }

  ghost predicate RightEvidence(e: Env, rows: map<nat, Row>, messageId: nat, row: AnswerRow) {
    if row.status != Answered then row.evidence == []
    else
      && |row.evidence| == |Citable(e)|
      && forall i :: 0 <= i < |row.evidence| ==>
           row.evidence[i] in rows && rows[row.evidence[i]] == Evidence(messageId, Citable(e)[i])
  }

  /** A retrieval that ended left its run and a row for every candidate: its rank, and whether
      it was selected. */
  ghost predicate RightRun(e: Env, rows: map<nat, Row>, messageId: nat, row: AnswerRow) {
    && row.runId.Some? == (ByDocuments(e) && !RetrievalBroke(e))
    && (row.runId.Some? ==>
          && row.runId.value in rows
          && rows[row.runId.value] ==
             Run(messageId, if Reaches(e, 0) || Reaches(e, 1) then None else Some(NoEvidence), row.evidence)
          && forall i :: 0 <= i < |e.candidates| ==> HasCandidate(e, rows, messageId, row.runId.value, i))
  }

  ghost predicate HasCandidate(e: Env, rows: map<nat, Row>, messageId: nat, runId: nat, i: nat)
    requires i < |e.candidates|
  {
    exists k :: && k in rows && rows[k].Candidate? && rows[k].messageId == messageId && rows[k].runId == runId
                && rows[k].persisted.candidate == e.candidates[i] && rows[k].persisted.rank == i + 1
                && rows[k].persisted.selected == Reaches(e, i)
  }

  // ------------------------------------------------------- The table says the same

  lemma {:induction false} FirstBlockingIs(needs: seq<Need>)
    ensures FirstBlocking(needs).Some? ==>
              exists k :: && 0 <= k < |needs| && needs[k].blocking && FirstBlocking(needs).value == needs[k]
                          && forall j :: 0 <= j < k ==> !needs[j].blocking
    ensures FirstBlocking(needs).None? ==> forall k :: 0 <= k < |needs| ==> !needs[k].blocking
  {
    if needs != [] && !needs[0].blocking {
      FirstBlockingIs(needs[1..]);
      if FirstBlocking(needs).Some? {
        var k :| 0 <= k < |needs[1..]| && needs[1..][k].blocking && FirstBlocking(needs[1..]).value == needs[1..][k]
                 && forall j :: 0 <= j < k ==> !needs[1..][j].blocking;
        assert needs[k + 1] == needs[1..][k];
        forall j | 0 <= j < k + 1
          ensures !needs[j].blocking
        {
          if j > 0 {
            assert needs[j] == needs[1..][j - 1];
          }
        }
      } else {
        forall k | 0 <= k < |needs|
          ensures !needs[k].blocking
        {
          if k > 0 {
            assert needs[k] == needs[1..][k - 1];
          }
        }
      }
    }
  }

  lemma AsksIs(e: Env)
    ensures AsksFirst(e.plan, e.page) <==> MustAsk(e)
  {
    FirstBlockingIs(e.plan.needs);
  }

  lemma BrokeIs(e: Env)
    ensures RetrievalFails(e) <==> RetrievalBroke(e)
  {
    forall i | 0 <= i < |e.candidates|
      ensures Retrieval.HasParents(e.candidates[i], e.visible) <==> !Orphan(e.candidates[i], e.visible)
    {
    }
  }

  /** Selected are those of the first two candidates that reach the threshold. */
  lemma ChunksAre(e: Env)
    ensures SelectedChunks(e) ==
            (if Reaches(e, 0) then [e.candidates[0].chunkId] else []) + if Reaches(e, 1) then [e.candidates[1].chunkId] else []
  {
    var ranked := Retrieval.Ranked(e.candidates, 2);
    if |ranked| > 2 {
      NoneLater(ranked, 2, |ranked|);
    }
    assert ranked[..|ranked|] == ranked;
    if |ranked| > 0 {
      CollectNext(ranked, 0, Retrieval.SelectedChunk);
    }
    if |ranked| > 1 {
      CollectNext(ranked, 1, Retrieval.SelectedChunk);
    }
  }

  lemma {:induction false} NoneLater(ranked: seq<Retrieval.Persisted>, k: nat, n: nat)
    requires k <= n <= |ranked| && forall i :: k <= i < n ==> !ranked[i].selected
    ensures Collect(ranked[..n], Retrieval.SelectedChunk) == Collect(ranked[..k], Retrieval.SelectedChunk)
  {
    if k < n {
      NoneLater(ranked, k, n - 1);
      CollectNext(ranked, n - 1, Retrieval.SelectedChunk);
    }
  }

  /** The table's answers are the right ones. */
  lemma RouteIsRight(e: Env)
    ensures RightStatus(e, Route(e).status) && RightReason(e, Route(e).reason) && RightTask(e, TaskOf(Route(e).status))
    ensures IsItem(Route(e).status) <==> !MustAsk(e) && e.plan.risk != Low
    ensures Route(e).retrieval == Ran <==> ByDocuments(e) && !RetrievalBroke(e)
    ensures Route(e).retrieval == Ran ==> Route(e).attaches == Citable(e)
    ensures Route(e).status == Answered ==> Route(e).attaches == Citable(e)
  {
    AsksIs(e);
    if ByDocuments(e) {
      BrokeIs(e);
      ChunksAre(e);
    }
  }

  lemma StreamIsRight(e: Env, item: nat, evidence: seq<nat>)
    requires Route(e).status != Answered ==> evidence == []
    requires Route(e).status == Answered ==> evidence != []
    ensures RightData(e, Lead(Route(e).stream, Route(e).status, item, evidence) + [Final(Route(e).status, evidence)],
                      Route(e).status, item, evidence)
  {
    AsksIs(e);
  }

  lemma ReviewIsRight(messageId: nat, decisionId: nat, reason: NoAnswerReason)
    ensures RightReview(NewReview(messageId, decisionId, reason), messageId, decisionId, reason)
  {
  }
}
