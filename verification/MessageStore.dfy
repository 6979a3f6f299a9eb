/** The tables a send writes, and the services that read and write them. Any call may throw. */
module MessageStore {
  import opened Prelude
  import opened Answers
  import opened Collecting
  import Retrieval

  datatype Message = Message(sessionId: nat, fromAssistant: bool, pending: bool, status: Option<Status>)

  datatype SourceType = ToolFailureSource | NoAnswerSource | PermissionMappingIssue | MissingEvidence

  /** A row of one of the tables about messages. The message is a column of its own, the
      field of a review item's JSON, or that of a candidate's run. */
  datatype Row =
    | Grounding(messageId: nat, covered: bool, evidence: seq<nat>)
    | Decision(messageId: nat, status: Status, reason: Option<NoAnswerReason>, groundingId: nat)
    | Review(messageId: nat, sourceType: SourceType, sourceId: nat, open: bool, urgent: bool)
    | Evidence(messageId: nat, chunkId: Option<string>)
    | Item(messageId: nat, kind: Status)
    | Run(messageId: nat, noAnswerReason: Option<NoAnswerReason>, selectedEvidence: seq<nat>)
    | Candidate(messageId: nat, runId: nat, persisted: Retrieval.Persisted)

  datatype Context = Context(sessionId: nat, task: TaskState, evidence: seq<nat>)

  /** What a decision rests on: an item, or a stored decision. */
  datatype Basis = OnItem(itemId: nat) | OnDecision(decisionId: nat, groundingId: nat, reviewId: Option<nat>)

  /** An `answer_generated` audit row. */
  datatype AnswerRow = AnswerRow(
    messageId: nat, status: Status, evidence: seq<nat>, runId: Option<nat>, basis: Basis)

  /** The rows of all tables by their ids, which no two rows share. */
  datatype Tables = Tables(
    nextId: nat, messages: map<nat, Message>, rows: map<nat, Row>, contexts: map<nat, Context>, answers: seq<AnswerRow>)

  /** The row's foreign keys hold, and lead to rows about the same message. */
  ghost predicate RefersRight(row: Row, rows: map<nat, Row>) {
    match row
    case Decision(m, _, _, g) => g in rows && rows[g].Grounding? && rows[g].messageId == m
    case Review(m, _, d, _, _) => d in rows && rows[d].Decision? && rows[d].messageId == m
    case Candidate(m, r, _) => r in rows && rows[r].Run? && rows[r].messageId == m
    case _ => true
  }

  /** Ids not handed out yet are unused, and what rows name is there. */
  ghost predicate Consistent(t: Tables) {
    && (forall k :: k in t.messages ==> k < t.nextId)
    && (forall k :: k in t.rows ==> k < t.nextId && t.rows[k].messageId in t.messages && RefersRight(t.rows[k], t.rows))
    && (forall k :: k in t.contexts ==> k < t.nextId)
    && (forall i :: 0 <= i < |t.answers| ==> t.answers[i].messageId in t.messages)
  }

  /** Between the two no row was removed and only runs of this message were changed, and
      every new row is about this message. */
  ghost predicate Grown(a: map<nat, Row>, b: map<nat, Row>, messageId: nat) {
    && (forall k :: k in a ==>
          k in b && (b[k] == a[k] || (a[k].Run? && b[k].Run? && a[k].messageId == b[k].messageId == messageId)))
    && (forall k :: k in b && k !in a ==> b[k].messageId == messageId)
  }

  /** No message but this one was changed, added or removed. */
  ghost predicate OthersKept(a: map<nat, Message>, b: map<nat, Message>, messageId: nat) {
    && (forall k :: k in a && k != messageId ==> k in b && b[k] == a[k])
    && forall k :: k in b && k != messageId ==> k in a
  }

  /** No context row of another session was changed, added or removed. */
  ghost predicate OtherSessionsKept(a: map<nat, Context>, b: map<nat, Context>, sessionId: nat) {
    && (forall k :: k in a && a[k].sessionId != sessionId ==> k in b && b[k] == a[k])
    && forall k :: k in b && b[k].sessionId != sessionId ==> k in a && b[k] == a[k]
  }

  /** The second map is the first with these rows under these new ids, all different. */
  ghost predicate Added(a: map<nat, Row>, b: map<nat, Row>, ids: seq<nat>, rows: seq<Row>) {
    && |ids| == |rows|
    && (forall i, j :: 0 <= i < j < |ids| ==> ids[i] != ids[j])
    && (forall i :: 0 <= i < |ids| ==> ids[i] !in a && ids[i] in b && b[ids[i]] == rows[i])
    && (forall k :: k in a ==> k in b && b[k] == a[k])
    && forall k :: k in b ==> k in a || k in ids
  }

  lemma AddedNext(a: map<nat, Row>, b: map<nat, Row>, ids: seq<nat>, rows: seq<Row>, id: nat, row: Row)
    requires Added(a, b, ids, rows) && id !in b
    ensures Added(a, b[id := row], ids + [id], rows + [row])
  {
    var more := ids + [id];
    assert more[|ids|] == id;
    forall k | k in b && k !in a
      ensures k in more
    {
      var i :| 0 <= i < |ids| && ids[i] == k;
      assert more[i] == k;
    }
  }

  function EvidenceRows(messageId: nat, chunks: seq<Option<string>>): (rows: seq<Row>)
    ensures |rows| == |chunks| && forall i :: 0 <= i < |rows| ==> rows[i] == Evidence(messageId, chunks[i])
  {
    seq(|chunks|, i requires 0 <= i < |chunks| => Evidence(messageId, chunks[i]))
  }

  function CandidateRows(messageId: nat, runId: nat, ranked: seq<Retrieval.Persisted>): (rows: seq<Row>)
    ensures |rows| == |ranked| && forall i :: 0 <= i < |rows| ==> rows[i] == Candidate(messageId, runId, ranked[i])
  {
    seq(|ranked|, i requires 0 <= i < |ranked| => Candidate(messageId, runId, ranked[i]))
  }

  function SourceOf(reason: NoAnswerReason): SourceType {
    match reason
    case ToolFailure => ToolFailureSource
    case NoEvidence => NoAnswerSource
    case DeniedPermission => PermissionMappingIssue
    case EvidenceConflict => MissingEvidence
  }

  /** An open item about an answer decision; denials and failures have high priority. */
  function NewReview(messageId: nat, decisionId: nat, reason: NoAnswerReason): Row {
    Review(messageId, SourceOf(reason), decisionId, true, reason == DeniedPermission || reason == ToolFailure)
  }

  /** The session has a context row, and all of its rows say this state and evidence. */
  ghost predicate HasTask(contexts: map<nat, Context>, sessionId: nat, task: TaskState, ids: seq<nat>) {
    && (exists k :: k in contexts && contexts[k].sessionId == sessionId)
    && forall k :: k in contexts && contexts[k].sessionId == sessionId ==> contexts[k] == Context(sessionId, task, ids)
  }

  /** `updateMany` on the rows of one session. */
  function WithTask(contexts: map<nat, Context>, sessionId: nat, task: TaskState, ids: seq<nat>): map<nat, Context> {
    map k | k in contexts ::
      if contexts[k].sessionId == sessionId then contexts[k].(task := task, evidence := ids) else contexts[k]
  }

  lemma WithTaskHas(contexts: map<nat, Context>, sessionId: nat, task: TaskState, ids: seq<nat>)
    requires exists k :: k in contexts && contexts[k].sessionId == sessionId
    ensures HasTask(WithTask(contexts, sessionId, task, ids), sessionId, task, ids)
    ensures OtherSessionsKept(contexts, WithTask(contexts, sessionId, task, ids), sessionId)
  {
    var k :| k in contexts && contexts[k].sessionId == sessionId;
    assert k in WithTask(contexts, sessionId, task, ids);
  }

  lemma NewTaskHas(contexts: map<nat, Context>, id: nat, sessionId: nat, task: TaskState, ids: seq<nat>)
    requires id !in contexts && forall k :: k in contexts ==> contexts[k].sessionId != sessionId
    ensures HasTask(contexts[id := Context(sessionId, task, ids)], sessionId, task, ids)
    ensures OtherSessionsKept(contexts, contexts[id := Context(sessionId, task, ids)], sessionId)
  {
    assert id in contexts[id := Context(sessionId, task, ids)];
  }

  /** A row whose references hold may be stored under the next id. */
  lemma RowAdded(t: Tables, row: Row)
    requires Consistent(t) && row.messageId in t.messages && RefersRight(row, t.rows)
    ensures t.nextId !in t.rows
    ensures Consistent(t.(nextId := t.nextId + 1, rows := t.rows[t.nextId := row]))
    ensures Grown(t.rows, t.rows[t.nextId := row], row.messageId)
  {
  }

  /** The ids a recorded decision comes back with. */
  datatype Filing = Filing(decisionId: nat, groundingId: nat)

  /** The rows with a grounding check and a decision that names it. */
  function WithFiling(rows: map<nat, Row>, filing: Filing, grounding: Row, status: Status,
                      reason: Option<NoAnswerReason>): map<nat, Row> {
    rows[filing.groundingId := grounding]
        [filing.decisionId := Decision(grounding.messageId, status, reason, filing.groundingId)]
  }

  /** A decision and the grounding check under it were stored as two new rows. */
  ghost predicate Files(a: map<nat, Row>, b: map<nat, Row>, filing: Filing, grounding: Row, status: Status,
                        reason: Option<NoAnswerReason>) {
    && filing.groundingId !in a && filing.decisionId !in a && filing.groundingId != filing.decisionId
    && b == WithFiling(a, filing, grounding, status, reason)
  }

  /** A stored candidate that was selected. */
  datatype Pick = Pick(id: nat, candidate: Retrieval.Candidate)

  ghost predicate Picked(p: Pick, rows: map<nat, Row>, runId: nat, visible: (string, string) -> bool) {
    && p.id in rows && rows[p.id].Candidate? && rows[p.id].runId == runId
    && rows[p.id].persisted.candidate == p.candidate && rows[p.id].persisted.selected
    && Retrieval.HasParents(p.candidate, visible)
  }

  /** The picks are stored candidates of the run, selected and with their parents, and name
      these chunks in order. */
  ghost predicate PicksAre(picks: seq<Pick>, rows: map<nat, Row>, runId: nat, visible: (string, string) -> bool,
                           chunks: seq<Option<string>>) {
    && |picks| == |chunks|
    && forall i :: 0 <= i < |picks| ==> Picked(picks[i], rows, runId, visible) && picks[i].candidate.chunkId == chunks[i]
  }

  datatype Retrieved = Retrieved(runId: nat, candidateIds: seq<nat>, picks: seq<Pick>)

  class Store {
    /** How many more calls succeed before one throws; None: all of them. */
    var callsLeft: Option<nat>
    var nextId: nat
    var messages: map<nat, Message>
    var rows: map<nat, Row>
    var contexts: map<nat, Context>
    var answers: seq<AnswerRow>

    ghost function Contents(): Tables
      reads this
    {
      Tables(nextId, messages, rows, contexts, answers)
    }

    ghost predicate Valid()
      reads this
    {
      Consistent(Contents())
    }

    method Call() returns (ok: bool)
      modifies this`callsLeft
      ensures old(callsLeft).None? ==> ok && callsLeft.None?
    {
      if callsLeft == Some(0) {
        return false;
      }
      if callsLeft.Some? {
        callsLeft := Some(callsLeft.value - 1);
      }
      return true;
    }

    method Insert(row: Row) returns (id: nat)
      requires Valid() && row.messageId in messages && RefersRight(row, rows)
      modifies this`nextId, this`rows
      ensures Valid() && Grown(old(rows), rows, row.messageId)
      ensures id !in old(rows) && rows == old(rows)[id := row]
    {
      RowAdded(Contents(), row);
      id := nextId;
      rows := rows[nextId := row];
      nextId := nextId + 1;
    }

    /** Stores a row unless the call throws. */
    method Create(row: Row) returns (id: Option<nat>)
      requires Valid() && row.messageId in messages && RefersRight(row, rows)
      modifies this`callsLeft, this`nextId, this`rows
      ensures Valid() && Grown(old(rows), rows, row.messageId)
      ensures id.Some? ==> id.value !in old(rows) && rows == old(rows)[id.value := row]
      ensures id.None? ==> rows == old(rows)
      ensures old(callsLeft).None? ==> id.Some? && callsLeft.None?
    {
      var ok := Call();
      if !ok {
        return None;
      }
      var stored := Insert(row);
      return Some(stored);
    }

    // ------------------------------------------------------ Messages and sessions

    method CreateMessage(message: Message) returns (id: Option<nat>)
      requires Valid()
      modifies this`callsLeft, this`nextId, this`messages
      ensures Valid()
      ensures id.Some? ==> id.value !in old(messages) && messages == old(messages)[id.value := message]
      ensures id.None? ==> messages == old(messages)
      ensures old(callsLeft).None? ==> id.Some? && callsLeft.None?
    {
      var ok := Call();
      if !ok {
        return None;
      }
      id := Some(nextId);
      messages := messages[nextId := message];
      nextId := nextId + 1;
    }

    method CompleteMessage(messageId: nat, status: Status) returns (ok: bool)
      requires Valid()
      modifies this`callsLeft, this`messages
      ensures Valid()
      ensures ok ==> messageId in old(messages)
                     && messages == old(messages)[messageId := old(messages)[messageId].(pending := false, status := Some(status))]
      ensures !ok ==> messages == old(messages)
      ensures old(callsLeft).None? ==> callsLeft.None? && (messageId in old(messages) ==> ok)
    {
      ok := Call();
      if !ok || messageId !in messages {
        return false;
      }
      ok := Call();
      if ok {
        messages := messages[messageId := messages[messageId].(pending := false, status := Some(status))];
      }
    }

    method UpdateOrCreate(sessionId: nat, task: TaskState, ids: seq<nat>) returns (ok: bool)
      requires Valid()
      modifies this`callsLeft, this`nextId, this`contexts
      ensures Valid()
      ensures ok ==> HasTask(contexts, sessionId, task, ids)
      ensures OtherSessionsKept(old(contexts), contexts, sessionId)
      ensures old(callsLeft).None? ==> ok && callsLeft.None?
    {
      ok := Call();
      if !ok {
        return;
      }
      if exists k :: k in contexts && contexts[k].sessionId == sessionId {
        WithTaskHas(contexts, sessionId, task, ids);
        contexts := WithTask(contexts, sessionId, task, ids);
      } else {
        ok := Call();
        if !ok {
          return;
        }
        NewTaskHas(contexts, nextId, sessionId, task, ids);
        contexts := contexts[nextId := Context(sessionId, task, ids)];
        nextId := nextId + 1;
      }
      ok := Call();
    }

    /** Appends one `answer_generated` row. */
    method AppendAnswer(row: AnswerRow) returns (ok: bool)
      requires Valid() && row.messageId in messages
      modifies this`callsLeft, this`answers
      ensures Valid()
      ensures answers == if ok then old(answers) + [row] else old(answers)
      ensures old(callsLeft).None? ==> ok && callsLeft.None?
    {
      ok := Call();
      if ok {
        answers := answers + [row];
      }
    }

    // ------------------------------------------------------------ Answer decisions

    /** A grounding check and then the decision that names it. */
    method CreateDecision(messageId: nat, covered: bool, ids: seq<nat>, status: Status, reason: Option<NoAnswerReason>)
      returns (filing: Option<Filing>)
      requires Valid() && messageId in messages
      modifies this`callsLeft, this`nextId, this`rows
      ensures Valid() && Grown(old(rows), rows, messageId)
      ensures filing.Some? ==> Files(old(rows), rows, filing.value, Grounding(messageId, covered, ids), status, reason)
      ensures old(callsLeft).None? ==> filing.Some? && callsLeft.None?
    {
      var groundingId := Create(Grounding(messageId, covered, ids));
      if groundingId.None? {
        return None;
      }
      var decisionId := Create(Decision(messageId, status, reason, groundingId.value));
      if decisionId.None? {
        return None;
      }
      return Some(Filing(decisionId.value, groundingId.value));
    }

    method RecordSafeDecision(messageId: nat, status: Status, reason: Option<NoAnswerReason>)
      returns (filing: Option<Filing>)
      requires Valid() && messageId in messages
      modifies this`callsLeft, this`nextId, this`rows
      ensures Valid() && Grown(old(rows), rows, messageId)
      ensures filing.Some? ==> Files(old(rows), rows, filing.value, Grounding(messageId, false, []), status, reason)
      ensures old(callsLeft).None? ==> filing.Some? && callsLeft.None?
    {
      filing := CreateDecision(messageId, false, [], status, reason);
    }

    /** The decision over attached evidence; only an answer cites it. */
    method Decide(messageId: nat, decision: ExecutionDecision, ids: seq<nat>)
      returns (status: Status, filing: Option<Filing>)
      requires Valid() && messageId in messages
      modifies this`callsLeft, this`nextId, this`rows
      ensures Valid() && Grown(old(rows), rows, messageId)
      ensures status == if decision == Clarify then ClarificationRequired else if ids == [] then NoAnswer else Answered
      ensures filing.Some? ==>
                Files(old(rows), rows, filing.value,
                      Grounding(messageId, status == Answered, if status == Answered then ids else []), status,
                      if status == NoAnswer then Some(NoEvidence) else None)
      ensures old(callsLeft).None? ==> filing.Some? && callsLeft.None?
    {
      var plan := BuildAnswerPlan(decision, ids);
      var covered := |plan.selected| > 0;
      status := ToDecisionStatus(decision, covered, plan);
      filing := CreateDecision(messageId, covered, plan.selected, status,
                               if status == NoAnswer then Some(NoEvidence) else None);
    }

    /** One transaction: the decision is read back before the item is created. */
    method CreateReviewItem(messageId: nat, decisionId: nat, status: Status, reason: NoAnswerReason)
      returns (id: Option<nat>)
      requires Valid() && messageId in messages
      modifies this`callsLeft, this`nextId, this`rows
      ensures Valid() && Grown(old(rows), rows, messageId)
      ensures id.Some? ==>
        && decisionId in old(rows) && old(rows)[decisionId].Decision?
        && old(rows)[decisionId].messageId == messageId && old(rows)[decisionId].status == status
        && id.value !in old(rows) && rows == old(rows)[id.value := NewReview(messageId, decisionId, reason)]
      ensures id.None? ==> rows == old(rows)
      ensures old(callsLeft).None? ==> callsLeft.None?
      ensures (old(callsLeft).None? && decisionId in old(rows) && old(rows)[decisionId].Decision?
               && old(rows)[decisionId].messageId == messageId && old(rows)[decisionId].status == status) ==> id.Some?
    {
      if decisionId !in rows || !rows[decisionId].Decision? || rows[decisionId].messageId != messageId
         || rows[decisionId].status != status {
        return None;
      }
      id := Create(NewReview(messageId, decisionId, reason));
    }

    // -------------------------------------------------------- Retrieval and evidence

    /** For a message of the session: stores the run, then a row for every candidate.
        `throwsAfter` is the number of rows after which a call throws; when it is None, no
        call does. */
    method RunDocumentRetrieval(sessionId: nat, messageId: nat, found: seq<Retrieval.Candidate>, limit: Option<int>,
                                visible: (string, string) -> bool, throwsAfter: Option<nat>)
      returns (r: Option<Retrieved>)
      requires Valid()
      modifies this`nextId, this`rows
      ensures Valid() && Grown(old(rows), rows, messageId)
      ensures r.Some? <==>
        MessageOf(messages, sessionId, messageId) && throwsAfter.None? && Retrieval.AllHaveParents(found, visible)
      ensures !MessageOf(messages, sessionId, messageId) ==> rows == old(rows)
      ensures r.Some? ==>
        Retrieves(old(rows), rows, messageId, Retrieval.Ranked(found, Retrieval.SelectedLimit(limit)), r.value, visible)
      ensures r.None? ==> OnlyRetrieval(old(rows), rows)
    {
      if !MessageOf(messages, sessionId, messageId) {
        return None;
      }
      var ranked := Retrieval.Ranked(found, Retrieval.SelectedLimit(limit));
      var ok := Retrieval.AssertCandidateParents(found, visible);
      if !ok || throwsAfter == Some(0) {
        return None;
      }
      var runId := Insert(Run(messageId, if Collect(ranked, Retrieval.SelectedChunk) == [] then Some(NoEvidence) else None, []));
      var stored := StoreCandidates(messageId, runId, ranked, visible, throwsAfter);
      return stored;
    }

    method StoreCandidate(messageId: nat, runId: nat, ranked: seq<Retrieval.Persisted>, i: nat, ids: seq<nat>,
                          picks: seq<Pick>, ghost visible: (string, string) -> bool, ghost before: map<nat, Row>)
      returns (moreIds: seq<nat>, morePicks: seq<Pick>)
      requires Valid() && runId in rows && rows[runId].Run? && rows[runId].messageId == messageId
      requires i < |ranked| && Retrieval.HasParents(ranked[i].candidate, visible)
      requires CandidatesStored(before, rows, messageId, ranked[..i], Retrieved(runId, ids, picks), visible)
      modifies this`nextId, this`rows
      ensures Valid() && runId in rows && rows[runId] == old(rows)[runId]
      ensures CandidatesStored(before, rows, messageId, ranked[..i + 1], Retrieved(runId, moreIds, morePicks), visible)
    {
      var id := Insert(Candidate(messageId, runId, ranked[i]));
      NextStored(before, old(rows), messageId, ranked, i, Retrieved(runId, ids, picks), id, visible);
      moreIds, morePicks := ids + [id], WithPick(picks, id, ranked[i]);
    }

    /** One row per candidate, in rank order. */
    method StoreCandidates(messageId: nat, runId: nat, ranked: seq<Retrieval.Persisted>,
                           ghost visible: (string, string) -> bool, throwsAfter: Option<nat>)
      returns (r: Option<Retrieved>)
      requires Valid() && runId in rows && rows[runId].Run? && rows[runId].messageId == messageId
      requires throwsAfter != Some(0)
      requires forall i :: 0 <= i < |ranked| ==> Retrieval.HasParents(ranked[i].candidate, visible)
      modifies this`nextId, this`rows
      ensures Valid() && r.Some? == throwsAfter.None?
      ensures r.Some? ==> r.value.runId == runId
                          && CandidatesStored(old(rows), rows, messageId, ranked, r.value, visible)
      ensures Grown(old(rows), rows, messageId) && OnlyCandidates(old(rows), rows)
    {
      var ids: seq<nat>, picks: seq<Pick> := [], [];
      assert ranked[..0] == [];
      for i := 0 to |ranked|
        invariant Valid() && runId in rows && rows[runId] == old(rows)[runId]
        invariant CandidatesStored(old(rows), rows, messageId, ranked[..i], Retrieved(runId, ids, picks), visible)
      {
        if throwsAfter == Some(i + 1) {
          StoredOnly(old(rows), rows, messageId, ranked[..i], Retrieved(runId, ids, picks), visible);
          return None;
        }
        ids, picks := StoreCandidate(messageId, runId, ranked, i, ids, picks, visible, old(rows));
      }
      assert ranked[..|ranked|] == ranked;
      StoredOnly(old(rows), rows, messageId, ranked, Retrieved(runId, ids, picks), visible);
      if throwsAfter.Some? {
        return None;
      }
      return Some(Retrieved(runId, ids, picks));
    }

    /** Reads back the run, the selected candidate and its chunk before the row is written. */
    method AttachDocumentChunk(messageId: nat, runId: nat, candidateId: nat, documentId: string, chunkId: string,
                               visible: (string, string) -> bool)
      returns (id: Option<nat>)
      requires Valid() && messageId in messages
      modifies this`callsLeft, this`nextId, this`rows
      ensures Valid() && Grown(old(rows), rows, messageId)
      ensures id.Some? ==> id.value !in old(rows) && rows == old(rows)[id.value := Evidence(messageId, Some(chunkId))]
      ensures id.Some? ==> Attachable(old(rows), messageId, runId, candidateId, documentId, chunkId, visible)
      ensures id.None? ==> rows == old(rows)
      ensures old(callsLeft).None? ==> callsLeft.None?
      ensures old(callsLeft).None? && Attachable(old(rows), messageId, runId, candidateId, documentId, chunkId, visible)
              ==> id.Some?
    {
      if !Attachable(rows, messageId, runId, candidateId, documentId, chunkId, visible) {
        return None;
      }
      id := Create(Evidence(messageId, Some(chunkId)));
    }

    /** A reference to the record a tool returned. */
    method AttachRecord(messageId: nat) returns (id: Option<nat>)
      requires Valid() && messageId in messages
      modifies this`callsLeft, this`nextId, this`rows
      ensures Valid() && Grown(old(rows), rows, messageId)
      ensures id.Some? ==> id.value !in old(rows) && rows == old(rows)[id.value := Evidence(messageId, None)]
      ensures id.None? ==> rows == old(rows)
      ensures old(callsLeft).None? ==> id.Some? && callsLeft.None?
    {
      id := Create(Evidence(messageId, None));
    }

    /** Writes the evidence into the run when the ids are distinct and all of the run's
        message. */
    method MarkSelectedEvidence(runId: nat, ids: seq<nat>) returns (ok: bool)
      requires Valid()
      modifies this`callsLeft, this`rows
      ensures Valid()
      ensures ok ==> Markable(old(rows), runId, ids) && rows == old(rows)[runId := old(rows)[runId].(selectedEvidence := ids)]
      ensures !ok ==> rows == old(rows)
      ensures old(callsLeft).None? ==> callsLeft.None? && (Markable(old(rows), runId, ids) ==> ok)
    {
      SupportSize(ids);
      if |Support(ids)| != |ids| {
        return false;
      }
      ok := Call();
      if !ok || runId !in rows || !rows[runId].Run? {
        return false;
      }
      if exists i :: 0 <= i < |ids| && !IsEvidenceOf(rows, ids[i], rows[runId].messageId) {
        return false;
      }
      ok := Call();
      if ok {
        rows := rows[runId := rows[runId].(selectedEvidence := ids)];
      }
    }
  }

  predicate MessageOf(messages: map<nat, Message>, sessionId: nat, messageId: nat) {
    messageId in messages && messages[messageId].sessionId == sessionId
  }

  predicate IsEvidenceOf(rows: map<nat, Row>, id: nat, messageId: nat) {
    id in rows && rows[id].Evidence? && rows[id].messageId == messageId
  }

  /** The ids are distinct evidence of the message of the run. */
  ghost predicate Markable(rows: map<nat, Row>, runId: nat, ids: seq<nat>) {
    && runId in rows && rows[runId].Run?
    && (forall i, j :: 0 <= i < j < |ids| ==> ids[i] != ids[j])
    && forall i :: 0 <= i < |ids| ==> IsEvidenceOf(rows, ids[i], rows[runId].messageId)
  }

  /** The candidate is a selected one of the message's run, and its chunk is there. */
  predicate Attachable(rows: map<nat, Row>, messageId: nat, runId: nat, candidateId: nat, documentId: string,
                       chunkId: string, visible: (string, string) -> bool) {
    && runId in rows && rows[runId].Run? && rows[runId].messageId == messageId
    && candidateId in rows && rows[candidateId].Candidate? && rows[candidateId].runId == runId
    && rows[candidateId].persisted.candidate.chunkId == Some(chunkId) && rows[candidateId].persisted.selected
    && visible(documentId, chunkId) && rows[candidateId].persisted.candidate.sourceId == chunkId
  }

  /** A row for every candidate, in rank order, the selected ones among them picked. */
  ghost predicate CandidatesStored(a: map<nat, Row>, b: map<nat, Row>, messageId: nat, ranked: seq<Retrieval.Persisted>,
                                   r: Retrieved, visible: (string, string) -> bool) {
    && Added(a, b, r.candidateIds, CandidateRows(messageId, r.runId, ranked))
    && PicksAre(r.picks, b, r.runId, visible, Collect(ranked, Retrieval.SelectedChunk))
  }

  ghost predicate OnlyCandidates(a: map<nat, Row>, b: map<nat, Row>) {
    && (forall k :: k in a ==> k in b && b[k] == a[k])
    && forall k :: k in b && k !in a ==> b[k].Candidate?
  }

  lemma StoredOnly(a: map<nat, Row>, b: map<nat, Row>, messageId: nat, ranked: seq<Retrieval.Persisted>, r: Retrieved,
                   visible: (string, string) -> bool)
    requires CandidatesStored(a, b, messageId, ranked, r, visible)
    ensures Grown(a, b, messageId) && OnlyCandidates(a, b)
  {
    forall k | k in b && k !in a
      ensures b[k].Candidate? && b[k].messageId == messageId
    {
      var i :| 0 <= i < |r.candidateIds| && r.candidateIds[i] == k;
    }
  }

  function WithPick(picks: seq<Pick>, id: nat, p: Retrieval.Persisted): seq<Pick> {
    if p.selected then picks + [Pick(id, p.candidate)] else picks
  }

  lemma PicksNext(picks: seq<Pick>, rows: map<nat, Row>, messageId: nat, ranked: seq<Retrieval.Persisted>, i: nat,
                  runId: nat, id: nat, visible: (string, string) -> bool)
    requires i < |ranked| && PicksAre(picks, rows, runId, visible, Collect(ranked[..i], Retrieval.SelectedChunk))
    requires id !in rows && Retrieval.HasParents(ranked[i].candidate, visible)
    ensures PicksAre(WithPick(picks, id, ranked[i]), rows[id := Candidate(messageId, runId, ranked[i])], runId, visible,
                     Collect(ranked[..i + 1], Retrieval.SelectedChunk))
  {
    CollectNext(ranked, i, Retrieval.SelectedChunk);
    PickAdded(picks, rows, Collect(ranked[..i], Retrieval.SelectedChunk), ranked[i], id,
              Candidate(messageId, runId, ranked[i]), runId, visible);
  }

  lemma PickAdded(picks: seq<Pick>, rows: map<nat, Row>, chunks: seq<Option<string>>, p: Retrieval.Persisted, id: nat,
                  row: Row, runId: nat, visible: (string, string) -> bool)
    requires PicksAre(picks, rows, runId, visible, chunks) && id !in rows
    requires row.Candidate? && row.runId == runId && row.persisted == p && Retrieval.HasParents(p.candidate, visible)
    ensures PicksAre(WithPick(picks, id, p), rows[id := row], runId, visible, chunks + OneOf(Retrieval.SelectedChunk(p)))
  {
  }

  lemma CandidateRowsNext(messageId: nat, runId: nat, ranked: seq<Retrieval.Persisted>, i: nat)
    requires i < |ranked|
    ensures CandidateRows(messageId, runId, ranked[..i + 1])
            == CandidateRows(messageId, runId, ranked[..i]) + [Candidate(messageId, runId, ranked[i])]
  {
  }

  /** Storing one more candidate. */
  lemma NextStored(a: map<nat, Row>, b: map<nat, Row>, messageId: nat, ranked: seq<Retrieval.Persisted>, i: nat,
                   r: Retrieved, id: nat, visible: (string, string) -> bool)
    requires i < |ranked| && CandidatesStored(a, b, messageId, ranked[..i], r, visible)
    requires id !in b && Retrieval.HasParents(ranked[i].candidate, visible)
    ensures CandidatesStored(a, b[id := Candidate(messageId, r.runId, ranked[i])], messageId, ranked[..i + 1],
                             Retrieved(r.runId, r.candidateIds + [id], WithPick(r.picks, id, ranked[i])), visible)
  {
    PicksNext(r.picks, b, messageId, ranked, i, r.runId, id, visible);
    CandidateRowsNext(messageId, r.runId, ranked, i);
    AddedNext(a, b, r.candidateIds, CandidateRows(messageId, r.runId, ranked[..i]), id,
              Candidate(messageId, r.runId, ranked[i]));
  }

  /** A new run with its candidates. */
  ghost predicate Retrieves(a: map<nat, Row>, b: map<nat, Row>, messageId: nat, ranked: seq<Retrieval.Persisted>,
                            r: Retrieved, visible: (string, string) -> bool) {
    var reason := if Collect(ranked, Retrieval.SelectedChunk) == [] then Some(NoEvidence) else None;
    && r.runId !in a
    && CandidatesStored(a[r.runId := Run(messageId, reason, [])], b, messageId, ranked, r, visible)
  }

  /** What was added is a run without evidence or a candidate. */
  ghost predicate OnlyRetrieval(a: map<nat, Row>, b: map<nat, Row>) {
    && (forall k :: k in a ==> k in b && b[k] == a[k])
    && forall k :: k in b && k !in a ==> b[k].Candidate? || (b[k].Run? && b[k].selectedEvidence == [])
  }
}
