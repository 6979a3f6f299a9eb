/** Gates, answer decisions and event streams of one assistant message. */
module Answers {
  import opened Prelude

  datatype RiskLevel = Low | Medium | High | Critical

  datatype ExecutionDecision =
    | Continue | Clarify | PlanNoAnswer | PlanPermissionDenied | PlanToolFailed
    | PlanApproval | PlanConfirmation | PlanEscalation

  datatype Status =
    | Answered | ClarificationRequired | NoAnswer | PermissionDenied | ToolFailed
    | ApprovalRequired | ConfirmationRequired | EscalationRequired

  datatype NoAnswerReason = NoEvidence | ToolFailure | DeniedPermission | EvidenceConflict

  datatype TaskState =
    | Idle | Planning | WaitingClarification | WaitingConfirmation | WaitingApproval
    | WaitingEscalation | TaskCompleted | TaskFailed

  /** What the session waits for after an answer decision. */
  function TaskOf(status: Status): TaskState {
    match status
    case ClarificationRequired => WaitingClarification
    case ConfirmationRequired => WaitingConfirmation
    case ApprovalRequired => WaitingApproval
    case EscalationRequired => WaitingEscalation
    case _ => TaskCompleted
  }

  // ----------------------------------------------------------------------- Gates

  datatype NeedReason =
    | MissingPageContext | MultipleCandidates | AmbiguousReference | EntityConflict
    | OtherReason(text: string)

  datatype Need = Need(blocking: bool, reason: NeedReason)

  datatype Plan = Plan(
    risk: RiskLevel, decision: ExecutionDecision, confidence: real, needs: seq<Need>, requiresDocuments: bool)

  datatype PageContext = PageContext(hasEntity: bool, selectedRows: nat)

  function FirstBlocking(needs: seq<Need>): Option<Need> {
    if needs == [] then None
    else if needs[0].blocking then Some(needs[0])
    else FirstBlocking(needs[1..])
  }

  predicate ClarifiesReadOnly(plan: Plan) {
    plan.risk == Low && (plan.decision == Clarify || plan.confidence < 0.7 || |plan.needs| > 0)
  }

  /** The reason to ask for clarification before anything runs, if there is one. */
  function PreRuntimeGate(plan: Plan): Option<NeedReason> {
    var blocking := FirstBlocking(plan.needs);
    if blocking.None? && !ClarifiesReadOnly(plan) then None
    else if blocking.Some? then Some(blocking.value.reason)
    else if |plan.needs| > 0 then Some(plan.needs[0].reason)
    else Some(OtherReason(if plan.confidence < 0.7 then "low_confidence" else "ambiguous_query"))
  }

  predicate AppliesPreRuntimeGate(risk: RiskLevel, page: Option<PageContext>, reason: NeedReason) {
    if risk == Low then true
    else if reason.OtherReason? then false
    else if page.None? || !page.value.hasEntity then true
    else page.value.selectedRows > 1
  }

  predicate AsksFirst(plan: Plan, page: Option<PageContext>) {
    var gate := PreRuntimeGate(plan);
    gate.Some? && AppliesPreRuntimeGate(plan.risk, page, gate.value)
  }

  datatype Lifecycle = CallCompleted | CallBlocked | CallFailed

  datatype Refusal = Refusal(status: Status, reason: NoAnswerReason)

  function PostRuntimeGate(lifecycle: Lifecycle, evidenceCount: nat): Option<Refusal> {
    match lifecycle
    case CallFailed => Some(Refusal(NoAnswer, ToolFailure))
    case CallBlocked => Some(Refusal(PermissionDenied, DeniedPermission))
    case CallCompleted => if evidenceCount == 0 then Some(Refusal(NoAnswer, NoEvidence)) else None
  }

  function ConflictGate(hasConflict: bool): Option<Refusal> {
    if hasConflict then Some(Refusal(NoAnswer, EvidenceConflict)) else None
  }

  // -------------------------------------------------------------- Answer decisions

  datatype AnswerType = ClarificationType | NoAnswerType | GroundedText

  datatype AnswerPlan = AnswerPlan(answerType: AnswerType, selected: seq<nat>)

  function BuildAnswerPlan(decision: ExecutionDecision, evidence: seq<nat>): AnswerPlan {
    if decision == Clarify then AnswerPlan(ClarificationType, [])
    else if |evidence| == 0 then AnswerPlan(NoAnswerType, [])
    else AnswerPlan(GroundedText, evidence)
  }

  function ToDecisionStatus(decision: ExecutionDecision, covered: bool, plan: AnswerPlan): Status {
    if decision == Clarify || plan.answerType == ClarificationType then ClarificationRequired
    else if !covered || plan.answerType == NoAnswerType then NoAnswer
    else Answered
  }

  // ---------------------------------------------------------------------- Events

  datatype Data =
    | ToolStarted | ToolCompleted | ToolBlocked | ToolFailedEvent
    | EvidenceAttached(refs: seq<nat>)
    | AnswerDelta
    | ItemRequired(kind: Status, item: nat)
    | Final(status: Status, evidence: seq<nat>)

  datatype Event = Event(messageId: nat, sequence: nat, data: Data)

  function Numbered(messageId: nat, datas: seq<Data>): (events: seq<Event>)
    ensures |events| == |datas|
    ensures forall i :: 0 <= i < |events| ==> events[i] == Event(messageId, i + 1, datas[i])
  {
    seq(|datas|, i requires 0 <= i < |datas| => Event(messageId, i + 1, datas[i]))
  }

  function ToolData(lifecycle: Lifecycle, evidence: seq<nat>): seq<Data> {
    match lifecycle
    case CallCompleted => [ToolStarted, ToolCompleted] + if |evidence| > 0 then [EvidenceAttached(evidence)] else []
    case CallBlocked => [ToolBlocked]
    case CallFailed => [ToolStarted, ToolFailedEvent]
  }

  /** The kinds of streams a send ends in. */
  datatype Stream = ItemStream | AnswerStream | ToolStream(lifecycle: Lifecycle)

  /** What comes before the final event. */
  function Lead(stream: Stream, status: Status, item: nat, evidence: seq<nat>): seq<Data> {
    match stream
    case ItemStream => [ItemRequired(status, item)]
    case AnswerStream => [AnswerDelta]
    case ToolStream(lifecycle) => ToolData(lifecycle, evidence) + [AnswerDelta]
  }

  function StreamOf(messageId: nat, stream: Stream, status: Status, item: nat, evidence: seq<nat>): seq<Event> {
    Numbered(messageId, Lead(stream, status, item, evidence) + [Final(status, evidence)])
  }

  class SseSequence {
    var current: nat

    constructor ()
      ensures current == 0
    {
      current := 0;
    }

    method Next() returns (n: nat)
      modifies this
      ensures n == old(current) + 1 == current
    {
      current := current + 1;
      n := current;
    }
  }

  method Push(messageId: nat, sequence: SseSequence, ghost datas: seq<Data>, events: seq<Event>, data: Data)
    returns (more: seq<Event>)
    requires events == Numbered(messageId, datas) && sequence.current == |events|
    modifies sequence
    ensures more == Numbered(messageId, datas + [data]) && sequence.current == |more|
  {
    var n := sequence.Next();
    more := events + [Event(messageId, n, data)];
  }

  method BuildItemEvents(messageId: nat, kind: Status, item: nat) returns (events: seq<Event>)
    ensures events == StreamOf(messageId, ItemStream, kind, item, [])
  {
    var sequence := new SseSequence();
    events := Push(messageId, sequence, [], [], ItemRequired(kind, item));
    events := Push(messageId, sequence, [ItemRequired(kind, item)], events, Final(kind, []));
  }

  method BuildAnswerOnlyEvents(messageId: nat, status: Status, evidence: seq<nat>) returns (events: seq<Event>)
    ensures events == StreamOf(messageId, AnswerStream, status, 0, evidence)
  {
    var sequence := new SseSequence();
    events := Push(messageId, sequence, [], [], AnswerDelta);
    events := Push(messageId, sequence, [AnswerDelta], events, Final(status, evidence));
  }

  method BuildMessageEvents(messageId: nat, lifecycle: Lifecycle, status: Status, evidence: seq<nat>)
    returns (events: seq<Event>)
    ensures events == StreamOf(messageId, ToolStream(lifecycle), status, 0, evidence)
  {
    var sequence := new SseSequence();
    ghost var datas: seq<Data> := [];
    events := [];
    if lifecycle == CallCompleted {
      events := Push(messageId, sequence, [], events, ToolStarted);
      events := Push(messageId, sequence, [ToolStarted], events, ToolCompleted);
      datas := [ToolStarted, ToolCompleted];
      if |evidence| > 0 {
        events := Push(messageId, sequence, datas, events, EvidenceAttached(evidence));
        datas := datas + [EvidenceAttached(evidence)];
      }
    }
    if lifecycle == CallBlocked {
      events := Push(messageId, sequence, [], events, ToolBlocked);
      datas := [ToolBlocked];
    }
    if lifecycle == CallFailed {
      events := Push(messageId, sequence, [], events, ToolStarted);
      events := Push(messageId, sequence, [ToolStarted], events, ToolFailedEvent);
      datas := [ToolStarted, ToolFailedEvent];
    }
    assert datas == ToolData(lifecycle, evidence);
    events := Push(messageId, sequence, datas, events, AnswerDelta);
    events := Push(messageId, sequence, datas + [AnswerDelta], events, Final(status, evidence));
  }

  /** The events of a message that waits for nothing. */
  method BuildEvents(messageId: nat, stream: Stream, status: Status, evidence: seq<nat>) returns (events: seq<Event>)
    requires !stream.ItemStream?
    ensures events == StreamOf(messageId, stream, status, 0, evidence)
  {
    if stream.AnswerStream? {
      events := BuildAnswerOnlyEvents(messageId, status, evidence);
    } else {
      events := BuildMessageEvents(messageId, stream.lifecycle, status, evidence);
    }
  }

  /** Numbered 1 to n, all of one message, and only the last event is final. */
  predicate ProperStream(events: seq<Event>, messageId: nat, final: Data) {
    && events != []
    && (forall i :: 0 <= i < |events| ==> events[i].sequence == i + 1 && events[i].messageId == messageId)
    && events[|events| - 1].data == final && final.Final?
    && forall i :: 0 <= i < |events| - 1 ==> !events[i].data.Final?
  }

  lemma StreamIsProper(messageId: nat, stream: Stream, status: Status, item: nat, evidence: seq<nat>)
    ensures ProperStream(StreamOf(messageId, stream, status, item, evidence), messageId, Final(status, evidence))
  {
    var lead := Lead(stream, status, item, evidence);
    forall i | 0 <= i < |lead|
      ensures !lead[i].Final?
    {
    }
  }
}
