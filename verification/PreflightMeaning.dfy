/**
 The preflight's report said of the fields of its input: which rows each counter counts and
 when each reason is given.
 */
module PreflightMeaning {
  import opened Prelude
  import opened Json
  import opened Texts
  import opened Collecting
  import opened Preflight
  import opened PolicyMeaning
  import opened PreflightTheorems
  import Orders
  import Policies

  // ------------------------------------------------------------------------ Fields

  /** The input is read exactly when its five fields are arrays, and they are what is read. */
  lemma InputIs(v: Value, i: Input)
    ensures ParseInput(v) == Some(i) <==>
            && Field(v, "customerRoots") == Some(Array(i.customerRoots))
            && Field(v, "retainedRows") == Some(Array(i.retainedRows))
            && Field(v, "approvedMappings") == Some(Array(i.approvedMappings))
            && Field(v, "relations") == Some(Array(i.relations))
            && Field(v, "scopedKeys") == Some(Array(i.scopedKeys))
  {
  }

  lemma TextIs(v: Option<Value>)
    ensures NonBlank(v) == if HasText(v) then Some(v.value.text) else None
  {
    HasTextIs(v);
  }

  /** The element names this row. */
  predicate Names(v: Value, row: Row) {
    && Field(v, "recordType") == Some(Text(row.recordType)) && HasText(Field(v, "recordType"))
    && Field(v, "recordId") == Some(Text(row.recordId)) && HasText(Field(v, "recordId"))
  }

  lemma NamesIs(v: Value, row: Row)
    ensures ParseRow(v) == Some(row) <==> Names(v, row)
  {
    TextIs(Field(v, "recordType"));
    TextIs(Field(v, "recordId"));
  }

  /** This mapping, at one position only, names the row. */
  ghost predicate OnlyMapping(i: Input, row: Row, m: Value) {
    exists j :: 0 <= j < |i.approvedMappings| && i.approvedMappings[j] == m && Names(m, row)
                && forall k :: 0 <= k < |i.approvedMappings| && Names(i.approvedMappings[k], row) ==> k == j
  }

  /** The mapping's customer is one of the roots. */
  ghost predicate ForRoot(m: Value, i: Input) {
    HasText(Field(m, "customerId")) && exists r :: r in i.customerRoots && Some(r) == Field(m, "customerId")
  }

  /** The mapping has a source, an approver and a time that can be read. */
  predicate SignedOff(m: Value, parses: string -> bool) {
    && HasText(Field(m, "mappingSource")) && HasText(Field(m, "approvedBy"))
    && HasText(Field(m, "approvedAt")) && parses(Field(m, "approvedAt").value.text)
  }

  // ----------------------------------------------------------------- The first defect

  /** What is wrong with the only mapping of a row, in the order it is looked for. */
  ghost predicate FirstDefect(m: Value, row: Row, i: Input, parses: string -> bool, reason: Reason) {
    match reason
    case InvalidCustomerId => !HasText(Field(m, "customerId"))
    case CustomerRootNotFound => HasText(Field(m, "customerId")) && !ForRoot(m, i)
    case InvalidMappingApproval => ForRoot(m, i) && !SignedOff(m, parses)
    case InvalidKnowledgeVisibility =>
      ForRoot(m, i) && SignedOff(m, parses) && row.recordType == "KnowledgeDocument" && OtherVisibility(m)
    case InvalidKnowledgePolicy =>
      && ForRoot(m, i) && SignedOff(m, parses) && row.recordType == "KnowledgeDocument"
      && !OtherVisibility(m) && !PolicyAccepted(m)
    case _ => false
  }

  /** Nothing is wrong with it. */
  ghost predicate Flawless(m: Value, row: Row, i: Input, parses: string -> bool) {
    ForRoot(m, i) && SignedOff(m, parses) && (row.recordType == "KnowledgeDocument" ==> PolicyAccepted(m))
  }

  lemma RootIs(m: Value, i: Input)
    ensures ForRoot(m, i) <==>
            NonBlank(Field(m, "customerId")).Some? && NonBlank(Field(m, "customerId")).value in RootSet(i.customerRoots)
  {
    TextIs(Field(m, "customerId"));
    if HasText(Field(m, "customerId")) {
      var name := Field(m, "customerId").value.text;
      RootListed(i, name);
      forall r | r in i.customerRoots
        ensures RootName(r) == Some(name) <==> Some(r) == Field(m, "customerId")
      {
        TextIs(Some(r));
      }
    }
  }

  lemma SignedOffIs(m: Value, parses: string -> bool)
    ensures SignedOff(m, parses) <==>
            && NonBlank(Field(m, "mappingSource")).Some? && NonBlank(Field(m, "approvedBy")).Some?
            && ApprovedTimestamp(Field(m, "approvedAt"), parses)
  {
    TextIs(Field(m, "mappingSource"));
    TextIs(Field(m, "approvedBy"));
    TextIs(Field(m, "approvedAt"));
  }

  lemma DefectIs(m: Value, row: Row, i: Input, parses: string -> bool, reason: Reason)
    requires Names(m, row)
    ensures ValidateMapping(m, row, RootSet(i.customerRoots), parses) == Some(reason) <==> FirstDefect(m, row, i, parses, reason)
    ensures ValidateMapping(m, row, RootSet(i.customerRoots), parses).None? <==> Flawless(m, row, i, parses)
  {
    NamesIs(m, row);
    RootIs(m, i);
    TextIs(Field(m, "customerId"));
    SignedOffIs(m, parses);
    if ForRoot(m, i) && SignedOff(m, parses) {
      PolicyDefectFirst(m, row, i, parses, reason);
    }
  }

  lemma PolicyDefectFirst(m: Value, row: Row, i: Input, parses: string -> bool, reason: Reason)
    requires m.Object? && ForRoot(m, i) && SignedOff(m, parses)
    ensures FirstDefect(m, row, i, parses, reason) <==>
            && row.recordType == "KnowledgeDocument" && Policies.NormalizeApproved(m).Err?
            && reason == PolicyReason(Policies.NormalizeApproved(m).error)
    ensures Flawless(m, row, i, parses) <==> row.recordType != "KnowledgeDocument" || Policies.NormalizeApproved(m).Ok?
  {
    PolicyIs(m);
    if OtherVisibility(m) {
      OtherVisibilityFails(m);
    }
  }

  // ---------------------------------------------------------------------- Retained rows

  /** The element names this row, and its type is one of those retained. */
  predicate KnownRow(v: Value, row: Row) {
    Names(v, row) && KnownType(row.recordType)
  }

  /** The reasons a retained row can be given. */
  ghost predicate RowCause(v: Value, i: Input, parses: string -> bool, reason: Reason) {
    match reason
    case InvalidPreflightInput => forall row :: !Names(v, row)
    case UnknownRecordType => exists row :: Names(v, row) && !KnownType(row.recordType)
    case UnmappedCustomer =>
      exists row :: KnownRow(v, row) && forall m :: m in i.approvedMappings ==> !Names(m, row)
    case AmbiguousCustomerMapping =>
      exists row, j, k :: KnownRow(v, row) && 0 <= j < k < |i.approvedMappings|
                          && Names(i.approvedMappings[j], row) && Names(i.approvedMappings[k], row)
    case _ =>
      exists row, m :: KnownRow(v, row) && OnlyMapping(i, row, m)
                       && FirstDefect(m, row, i, parses, reason)
  }

  /** The row is mapped: its only mapping is without defect. */
  ghost predicate RowMapped(v: Value, i: Input, parses: string -> bool) {
    exists row, m :: KnownRow(v, row) && OnlyMapping(i, row, m) && Flawless(m, row, i, parses)
  }

  /** The counter each reason for a row is counted in. */
  function CounterFor(reason: Reason): Counter {
    match reason
    case UnmappedCustomer => Unmapped
    case AmbiguousCustomerMapping => Ambiguous
    case InvalidKnowledgeVisibility | InvalidKnowledgePolicy => InvalidPolicy
    case _ => InvalidCustomer
  }

  /** The entries found for a row, by how many mappings name it. */
  ghost predicate EntriesRight(i: Input, row: Row, entries: seq<Value>) {
    && (entries == [] <==> forall m :: m in i.approvedMappings ==> !Names(m, row))
    && (|entries| > 1 <==> exists j, k :: 0 <= j < k < |i.approvedMappings|
                                          && Names(i.approvedMappings[j], row) && Names(i.approvedMappings[k], row))
    && (|entries| == 1 ==> Names(entries[0], row) && forall m :: OnlyMapping(i, row, m) <==> m == entries[0])
  }

  lemma EntriesFor(i: Input, v: Value, row: Row)
    requires v in i.retainedRows && KnownRow(v, row)
    ensures EntriesRight(i, row, Entries(i.approvedMappings, RetainedKeys(i.retainedRows), RowKey(row)))
  {
    NamesIs(v, row);
    KeyRetained(i.retainedRows, RowKey(row));
    var select := EntrySelect(RetainedKeys(i.retainedRows), RowKey(row));
    forall m
      ensures select(m) == if Names(m, row) then Some(m) else None
    {
      EntryTargets(i, m, row);
      NamesIs(m, row);
    }
    SelectedEntries(i, row, select);
  }

  lemma SelectedEntries(i: Input, row: Row, select: Value -> Option<Value>)
    requires forall m :: select(m) == if Names(m, row) then Some(m) else None
    ensures EntriesRight(i, row, Collect(i.approvedMappings, select))
  {
    var mappings := i.approvedMappings;
    var entries := Collect(mappings, select);
    CollectNone(mappings, select);
    if j :| 0 <= j < |mappings| && Names(mappings[j], row) {
      CollectSingle(mappings, select, j);
      CollectHas(mappings, select, mappings[j]);
      if |entries| > 1 {
        var k :| 0 <= k < |mappings| && select(mappings[k]).Some? && k != j;
        assert Names(mappings[k], row);
        assert if j < k then 0 <= j < k < |mappings| else 0 <= k < j < |mappings|;
      }
    }
  }

  /** What a row is given is what it has a cause for. */
  ghost predicate JudgedRight(f: Option<Finding>, i: Input, v: Value, parses: string -> bool, reason: Reason) {
    && (f == Some(Finding(CounterFor(reason), reason)) <==> RowCause(v, i, parses, reason))
    && (f.None? <==> RowMapped(v, i, parses))
    && (f.Some? ==> f.value.counter == CounterFor(f.value.reason))
  }

  /** The element names this row and no other. */
  ghost predicate NamesOnly(v: Value, row: Row) {
    Names(v, row) && forall other :: Names(v, other) ==> other == row
  }

  lemma RowFindingIs(i: Input, v: Value, parses: string -> bool, reason: Reason)
    requires v in i.retainedRows
    ensures JudgedRight(RowFinding(v, ContextOf(i, parses)), i, v, parses, reason)
  {
    if ParseRow(v).None? {
      UnreadableIs(i, v, parses, reason);
    } else {
      var row := ParseRow(v).value;
      ReadsAs(v, row);
      if KnownType(row.recordType) {
        KnownRowIs(i, v, row, parses, reason);
      } else {
        UnknownRowIs(i, v, row, parses, reason);
      }
    }
  }

  lemma ReadsAs(v: Value, row: Row)
    requires ParseRow(v) == Some(row)
    ensures NamesOnly(v, row)
  {
    forall other
      ensures ParseRow(v) == Some(other) <==> Names(v, other)
    {
      NamesIs(v, other);
    }
  }

  lemma UnreadableIs(i: Input, v: Value, parses: string -> bool, reason: Reason)
    requires ParseRow(v).None?
    ensures JudgedRight(Some(Finding(InvalidCustomer, InvalidPreflightInput)), i, v, parses, reason)
  {
    forall row
      ensures !Names(v, row)
    {
      NamesIs(v, row);
    }
    NamelessCauses(i, v, parses, reason);
  }

  lemma NamelessCauses(i: Input, v: Value, parses: string -> bool, reason: Reason)
    requires forall row :: !Names(v, row)
    ensures RowCause(v, i, parses, reason) <==> reason == InvalidPreflightInput
    ensures !RowMapped(v, i, parses)
  {
    assert forall row :: !KnownRow(v, row);
  }

  lemma UnknownRowIs(i: Input, v: Value, row: Row, parses: string -> bool, reason: Reason)
    requires NamesOnly(v, row) && !KnownType(row.recordType)
    ensures JudgedRight(Some(Finding(InvalidCustomer, UnknownRecordType)), i, v, parses, reason)
  {
    UnknownCauses(i, v, row, parses, reason);
  }

  lemma UnknownCauses(i: Input, v: Value, row: Row, parses: string -> bool, reason: Reason)
    requires NamesOnly(v, row) && !KnownType(row.recordType)
    ensures RowCause(v, i, parses, reason) <==> reason == UnknownRecordType
    ensures !RowMapped(v, i, parses)
  {
    assert forall other :: !KnownRow(v, other);
  }

  lemma KnownRowIs(i: Input, v: Value, row: Row, parses: string -> bool, reason: Reason)
    requires v in i.retainedRows && NamesOnly(v, row) && KnownRow(v, row) && ParseRow(v) == Some(row)
    ensures JudgedRight(RowFinding(v, ContextOf(i, parses)), i, v, parses, reason)
  {
    var entries := Entries(i.approvedMappings, RetainedKeys(i.retainedRows), RowKey(row));
    EntriesFor(i, v, row);
    if |entries| == 1 {
      OnlyMappingIs(i, v, row, entries[0], parses, reason);
    } else {
      NotOneMapping(i, v, row, entries, parses, reason);
    }
  }

  lemma NotOneMapping(i: Input, v: Value, row: Row, entries: seq<Value>, parses: string -> bool, reason: Reason)
    requires NamesOnly(v, row) && KnownRow(v, row) && EntriesRight(i, row, entries) && |entries| != 1
    ensures RowCause(v, i, parses, reason) <==>
            reason == if entries == [] then UnmappedCustomer else AmbiguousCustomerMapping
    ensures !RowMapped(v, i, parses)
  {
    forall m
      ensures !OnlyMapping(i, row, m)
    {
    }
    if reason == UnmappedCustomer || reason == AmbiguousCustomerMapping {
      ByNumber(i, v, row, entries, parses);
    } else {
      NoOnlyMapping(i, v, row, parses, reason);
    }
  }

  lemma ByNumber(i: Input, v: Value, row: Row, entries: seq<Value>, parses: string -> bool)
    requires NamesOnly(v, row) && KnownRow(v, row) && EntriesRight(i, row, entries)
    ensures RowCause(v, i, parses, UnmappedCustomer) <==> entries == []
    ensures RowCause(v, i, parses, AmbiguousCustomerMapping) <==> |entries| > 1
  {
  }

  lemma NoOnlyMapping(i: Input, v: Value, row: Row, parses: string -> bool, reason: Reason)
    requires NamesOnly(v, row) && KnownRow(v, row) && forall m :: !OnlyMapping(i, row, m)
    requires reason != UnmappedCustomer && reason != AmbiguousCustomerMapping
    ensures !RowCause(v, i, parses, reason)
  {
  }

  lemma OnlyMappingIs(i: Input, v: Value, row: Row, m: Value, parses: string -> bool, reason: Reason)
    requires NamesOnly(v, row) && KnownRow(v, row)
    requires Names(m, row) && forall x :: OnlyMapping(i, row, x) <==> x == m
    ensures var outcome := ValidateMapping(m, row, RootSet(i.customerRoots), parses);
            JudgedRight(if outcome.Some? then Some(OutcomeFinding(outcome.value)) else None, i, v, parses, reason)
  {
    var outcome := ValidateMapping(m, row, RootSet(i.customerRoots), parses);
    DefectIs(m, row, i, parses, reason);
    OneMappingCauses(i, v, row, m, parses, reason);
    if outcome.Some? {
      DefectIs(m, row, i, parses, outcome.value);
      DefectCounter(m, row, i, parses, outcome.value);
    }
  }

  lemma DefectCounter(m: Value, row: Row, i: Input, parses: string -> bool, reason: Reason)
    requires FirstDefect(m, row, i, parses, reason)
    ensures OutcomeFinding(reason) == Finding(CounterFor(reason), reason)
  {
  }

  lemma OneMappingCauses(i: Input, v: Value, row: Row, m: Value, parses: string -> bool, reason: Reason)
    requires NamesOnly(v, row) && KnownRow(v, row)
    requires Names(m, row) && forall x :: OnlyMapping(i, row, x) <==> x == m
    ensures RowCause(v, i, parses, reason) <==> FirstDefect(m, row, i, parses, reason)
    ensures RowMapped(v, i, parses) <==> Flawless(m, row, i, parses)
  {
    assert OnlyMapping(i, row, m);
    if FirstDefect(m, row, i, parses, reason) {
      DefectHasCause(i, v, row, m, parses, reason);
    }
  }

  lemma DefectHasCause(i: Input, v: Value, row: Row, m: Value, parses: string -> bool, reason: Reason)
    requires KnownRow(v, row) && OnlyMapping(i, row, m) && FirstDefect(m, row, i, parses, reason)
    ensures RowCause(v, i, parses, reason)
  {
  }

  // ---------------------------------------------------------------------- Counting

  lemma {:induction false} CountIs<T>(s: seq<T>, f: T -> Option<Finding>, c: Counter, p: T -> bool)
    requires forall x :: x in s ==> (f(x).Some? && f(x).value.counter == c <==> p(x))
    ensures Count(Collect(s, f), c) == CountWhere(s, p)
  {
    if s != [] {
      var init, last := s[..|s| - 1], s[|s| - 1];
      CountIs(init, f, c, p);
      CountWhereNext(s, p);
      CountConcat(Collect(init, f), OneOf(f(last)), c);
      CountOne(f(last), c);
    }
  }

  // ------------------------------------------------------------- The policy counter

  /** A document whose only mapping is for a root and signed off, but whose policy is not
      accepted. */
  ghost predicate PolicyDefect(v: Value, i: Input, parses: string -> bool) {
    exists row, m :: && Names(v, row) && row.recordType == "KnowledgeDocument" && OnlyMapping(i, row, m)
                     && ForRoot(m, i) && SignedOff(m, parses) && !PolicyAccepted(m)
  }

  /** The rows nothing can be said of, and those whose only mapping lacks a customer, a
      listed root or an approval. */
  ghost predicate CustomerDefect(v: Value, i: Input, parses: string -> bool) {
    || (forall row :: !Names(v, row))
    || (exists row :: Names(v, row) && !KnownType(row.recordType))
    || exists row, m :: && KnownRow(v, row) && OnlyMapping(i, row, m)
                        && !(ForRoot(m, i) && SignedOff(m, parses))
  }

  /** The twenty record types whose rows are retained. */
  predicate RetainedType(t: string) {
    || t == "AssistantSession" || t == "AssistantMessage" || t == "AssistantContextState" || t == "ExecutionPlan"
    || t == "AnswerDecision" || t == "ClarificationQuestion" || t == "GroundingCheck" || t == "QueryUnderstandingResult"
    || t == "KnowledgeDocument" || t == "KnowledgeChunk" || t == "RetrievalRun" || t == "RetrievalCandidate"
    || t == "EvidenceRef" || t == "ToolCall" || t == "ApprovalRequest" || t == "ActionDraft"
    || t == "EscalationRequest" || t == "FeedbackEvent" || t == "ReviewItem" || t == "AuditEvent"
  }

  lemma {:induction false} ListableAt(t: string, k: nat) returns (j: nat)
    requires Listable(t, k)
    ensures k <= j < 20 && TypeName(j) == t
    decreases 20 - k
  {
    if t == TypeName(k) {
      j := k;
    } else {
      j := ListableAt(t, k + 1);
    }
  }

  lemma {:induction false} NameIsListable(t: string, k: nat, j: nat)
    requires k <= j < 20 && TypeName(j) == t
    ensures Listable(t, k)
    decreases j - k
  {
    if k < j {
      NameIsListable(t, k + 1, j);
    }
  }

  lemma KnownTypesAre(t: string)
    ensures KnownType(t) <==> RetainedType(t)
  {
    if RetainedType(t) {
      var k := RetainedAt(t);
      NameIsListable(t, 0, k);
    }
    if KnownType(t) {
      var k := ListableAt(t, 0);
      NameIsRetained(k);
    }
  }

  lemma NameIsRetained(k: nat)
    ensures RetainedType(TypeName(k))
  {
  }

  lemma RetainedAt(t: string) returns (k: nat)
    requires RetainedType(t)
    ensures k < 20 && TypeName(k) == t
  {
    k := if t == "AssistantSession" then 0 else if t == "AssistantMessage" then 1
         else if t == "AssistantContextState" then 2 else if t == "ExecutionPlan" then 3
         else if t == "AnswerDecision" then 4 else if t == "ClarificationQuestion" then 5
         else if t == "GroundingCheck" then 6 else if t == "QueryUnderstandingResult" then 7
         else if t == "KnowledgeDocument" then 8 else if t == "KnowledgeChunk" then 9
         else if t == "RetrievalRun" then 10 else if t == "RetrievalCandidate" then 11
         else if t == "EvidenceRef" then 12 else if t == "ToolCall" then 13 else if t == "ApprovalRequest" then 14
         else if t == "ActionDraft" then 15 else if t == "EscalationRequest" then 16
         else if t == "FeedbackEvent" then 17 else if t == "ReviewItem" then 18 else 19;
  }

  lemma DocumentsAreKnown()
    ensures KnownType("KnowledgeDocument")
  {
    NameIsListable("KnowledgeDocument", 0, 8);
  }

  predicate BadPolicy(reason: Reason) {
    reason == InvalidKnowledgeVisibility || reason == InvalidKnowledgePolicy
  }

  lemma PolicyDefectIs(i: Input, v: Value, parses: string -> bool)
    ensures PolicyDefect(v, i, parses) <==> exists reason :: BadPolicy(reason) && RowCause(v, i, parses, reason)
  {
    if row, m :| && Names(v, row) && row.recordType == "KnowledgeDocument" && OnlyMapping(i, row, m)
                 && ForRoot(m, i) && SignedOff(m, parses) && !PolicyAccepted(m) {
      UnacceptedHas(i, v, row, m, parses);
    }
    if reason :| BadPolicy(reason) && RowCause(v, i, parses, reason) {
      BadPolicyIs(i, v, parses, reason);
    }
  }

  lemma UnacceptedHas(i: Input, v: Value, row: Row, m: Value, parses: string -> bool)
    requires && Names(v, row) && row.recordType == "KnowledgeDocument" && OnlyMapping(i, row, m)
             && ForRoot(m, i) && SignedOff(m, parses) && !PolicyAccepted(m)
    ensures exists reason :: BadPolicy(reason) && RowCause(v, i, parses, reason)
  {
    var reason := if OtherVisibility(m) then InvalidKnowledgeVisibility else InvalidKnowledgePolicy;
    DocumentsAreKnown();
    assert FirstDefect(m, row, i, parses, reason);
    assert BadPolicy(reason) && RowCause(v, i, parses, reason);
  }

  lemma BadPolicyIs(i: Input, v: Value, parses: string -> bool, reason: Reason)
    requires BadPolicy(reason) && RowCause(v, i, parses, reason)
    ensures PolicyDefect(v, i, parses)
  {
    var row, m :| KnownRow(v, row) && OnlyMapping(i, row, m) && FirstDefect(m, row, i, parses, reason);
    if OtherVisibility(m) {
      OtherVisibilityFails(m);
    }
  }

  predicate CustomerReason(reason: Reason) {
    || reason == InvalidPreflightInput || reason == UnknownRecordType || reason == InvalidCustomerId
    || reason == CustomerRootNotFound || reason == InvalidMappingApproval
  }

  lemma CustomerDefectIs(i: Input, v: Value, parses: string -> bool)
    requires v in i.retainedRows
    ensures CustomerDefect(v, i, parses) <==> exists reason :: CustomerReason(reason) && RowCause(v, i, parses, reason)
  {
    if forall row :: !Names(v, row) {
      assert CustomerReason(InvalidPreflightInput) && RowCause(v, i, parses, InvalidPreflightInput);
    }
    if row :| Names(v, row) && !KnownType(row.recordType) {
      assert CustomerReason(UnknownRecordType) && RowCause(v, i, parses, UnknownRecordType);
    }
    if row, m :| KnownRow(v, row) && OnlyMapping(i, row, m) && !(ForRoot(m, i) && SignedOff(m, parses)) {
      UnapprovedHas(i, v, row, m, parses);
    }
    if reason :| CustomerReason(reason) && RowCause(v, i, parses, reason) {
      CustomerReasonIs(i, v, parses, reason);
    }
  }

  lemma CustomerReasonIs(i: Input, v: Value, parses: string -> bool, reason: Reason)
    requires CustomerReason(reason) && RowCause(v, i, parses, reason)
    ensures CustomerDefect(v, i, parses)
  {
  }

  lemma UnapprovedHas(i: Input, v: Value, row: Row, m: Value, parses: string -> bool)
    requires KnownRow(v, row) && OnlyMapping(i, row, m) && !(ForRoot(m, i) && SignedOff(m, parses))
    ensures exists reason :: CustomerReason(reason) && RowCause(v, i, parses, reason)
  {
    var reason := if !HasText(Field(m, "customerId")) then InvalidCustomerId
                  else if !ForRoot(m, i) then CustomerRootNotFound else InvalidMappingApproval;
    assert FirstDefect(m, row, i, parses, reason);
    assert CustomerReason(reason) && RowCause(v, i, parses, reason);
  }

  lemma CountedUnder(i: Input, v: Value, parses: string -> bool)
    requires v in i.retainedRows
    ensures var f := RowFinding(v, ContextOf(i, parses));
            && (f.Some? && f.value.counter == InvalidPolicy <==> PolicyDefect(v, i, parses))
            && (f.Some? && f.value.counter == InvalidCustomer <==> CustomerDefect(v, i, parses))
            && (f.None? <==> RowMapped(v, i, parses))
  {
    RowFindingIs(i, v, parses, InvalidPreflightInput);
    PolicyUnder(i, v, parses);
    CustomerUnder(i, v, parses);
  }

  lemma PolicyUnder(i: Input, v: Value, parses: string -> bool)
    requires v in i.retainedRows
    ensures var f := RowFinding(v, ContextOf(i, parses));
            f.Some? && f.value.counter == InvalidPolicy <==> PolicyDefect(v, i, parses)
  {
    var f := RowFinding(v, ContextOf(i, parses));
    if f.Some? {
      RowFindingIs(i, v, parses, f.value.reason);
      PolicyCounted(f, i, v, parses);
    }
    PolicyDefectIs(i, v, parses);
    if reason :| BadPolicy(reason) && RowCause(v, i, parses, reason) {
      RowFindingIs(i, v, parses, reason);
      BadPolicyCounter(f, i, v, parses, reason);
    }
  }

  lemma PolicyCounted(f: Option<Finding>, i: Input, v: Value, parses: string -> bool)
    requires f.Some? && JudgedRight(f, i, v, parses, f.value.reason)
    ensures f.value.counter == InvalidPolicy ==> PolicyDefect(v, i, parses)
  {
    if f.value.counter == InvalidPolicy {
      BadPolicyIs(i, v, parses, f.value.reason);
    }
  }

  lemma BadPolicyCounter(f: Option<Finding>, i: Input, v: Value, parses: string -> bool, reason: Reason)
    requires BadPolicy(reason) && RowCause(v, i, parses, reason) && JudgedRight(f, i, v, parses, reason)
    ensures f.Some? && f.value.counter == InvalidPolicy
  {
  }

  lemma CustomerUnder(i: Input, v: Value, parses: string -> bool)
    requires v in i.retainedRows
    ensures var f := RowFinding(v, ContextOf(i, parses));
            f.Some? && f.value.counter == InvalidCustomer <==> CustomerDefect(v, i, parses)
  {
    var f := RowFinding(v, ContextOf(i, parses));
    if f.Some? {
      RowFindingIs(i, v, parses, f.value.reason);
      CustomerCounted(f, i, v, parses);
    }
    CustomerDefectIs(i, v, parses);
    if reason :| CustomerReason(reason) && RowCause(v, i, parses, reason) {
      RowFindingIs(i, v, parses, reason);
      CustomerReasonCounter(f, i, v, parses, reason);
    }
  }

  lemma CustomerCounted(f: Option<Finding>, i: Input, v: Value, parses: string -> bool)
    requires f.Some? && JudgedRight(f, i, v, parses, f.value.reason)
    ensures f.value.counter == InvalidCustomer ==> CustomerDefect(v, i, parses)
  {
    NoMismatch(i, v, parses);
    if f.value.counter == InvalidCustomer {
      CustomerReasonIs(i, v, parses, f.value.reason);
    }
  }

  lemma CustomerReasonCounter(f: Option<Finding>, i: Input, v: Value, parses: string -> bool, reason: Reason)
    requires CustomerReason(reason) && RowCause(v, i, parses, reason) && JudgedRight(f, i, v, parses, reason)
    ensures f.Some? && f.value.counter == InvalidCustomer
  {
  }

  /** The remaining reasons are never given to a row. */
  lemma NoMismatch(i: Input, v: Value, parses: string -> bool)
    ensures !RowCause(v, i, parses, MappingResourceMismatch) && !RowCause(v, i, parses, CrossCustomerRelation)
    ensures !RowCause(v, i, parses, CustomerScopedUniquenessConflict)
  {
  }

  // ------------------------------------------------------------------- The counters

  /** The text under which a row is looked up. */
  function KeyText(row: Row): string {
    row.recordType + "\0" + row.recordId
  }

  /** The reasons a mapping can be rejected for. */
  ghost predicate EntryCause(m: Value, i: Input, reason: Reason) {
    match reason
    case InvalidPreflightInput => forall row :: !Names(m, row)
    case UnknownRecordType => exists row :: Names(m, row) && !KnownType(row.recordType)
    case MappingResourceMismatch =>
      exists row :: Names(m, row) && KnownType(row.recordType)
                    && forall v, other :: v in i.retainedRows && Names(v, other) ==> KeyText(other) != KeyText(row)
    case _ => false
  }

  ghost predicate Rejected(m: Value, i: Input) {
    exists reason :: EntryCause(m, i, reason)
  }

  lemma EntryFindingIs(i: Input, m: Value, reason: Reason)
    ensures EntryFinding(m, RetainedKeys(i.retainedRows)) == Some(Finding(InvalidCustomer, reason)) <==> EntryCause(m, i, reason)
  {
    forall row
      ensures ParseRow(m) == Some(row) <==> Names(m, row)
    {
      NamesIs(m, row);
    }
    if ParseRow(m).Some? {
      KeyKept(i, KeyText(ParseRow(m).value));
      assert KeyText(ParseRow(m).value) == RowKey(ParseRow(m).value);
    }
  }

  lemma KeyKept(i: Input, key: string)
    ensures key !in RetainedKeys(i.retainedRows) <==>
            forall v, other :: v in i.retainedRows && Names(v, other) ==> KeyText(other) != key
  {
    KeyRetained(i.retainedRows, key);
    forall v, other
      ensures ParseRow(v) == Some(other) <==> Names(v, other)
      ensures KeyText(other) == RowKey(other)
    {
      NamesIs(v, other);
    }
    if v :| v in i.retainedRows && KeyOf(v) == Some(key) {
      assert Names(v, ParseRow(v).value);
    }
  }

  lemma RejectedIs(i: Input, m: Value)
    ensures EntryFinding(m, RetainedKeys(i.retainedRows)).Some? <==> Rejected(m, i)
  {
    var f := EntryFinding(m, RetainedKeys(i.retainedRows));
    if f.Some? {
      EntryFindingIs(i, m, f.value.reason);
    }
    if reason :| EntryCause(m, i, reason) {
      EntryFindingIs(i, m, reason);
    }
  }

  /** The different texts among the roots. */
  function RootTexts(i: Input): set<string> {
    set r | r in i.customerRoots && HasText(Some(r)) :: r.text
  }

  lemma RootTextsAre(i: Input)
    ensures RootSet(i.customerRoots) == RootTexts(i)
  {
    forall name
      ensures name in RootSet(i.customerRoots) <==> name in RootTexts(i)
    {
      RootListed(i, name);
      forall r | r in i.customerRoots
        ensures RootName(r) == Some(name) <==> HasText(Some(r)) && r.text == name
      {
        TextIs(Some(r));
      }
    }
  }

  /** The relation lies inside one customer. */
  predicate Within(r: Value) {
    HasText(Field(r, "childCustomerId")) && Field(r, "childCustomerId") == Field(r, "parentCustomerId")
  }

  lemma WithinIs(r: Value)
    ensures RelationFinding(r).None? <==> Within(r)
  {
    TextIs(Field(r, "childCustomerId"));
    TextIs(Field(r, "parentCustomerId"));
  }

  lemma RowCountsAre(i: Input, parses: string -> bool)
    ensures Count(RowLog(i, parses), InvalidPolicy) == CountWhere(i.retainedRows, v => PolicyDefect(v, i, parses))
    ensures Count(RowLog(i, parses), InvalidCustomer) == CountWhere(i.retainedRows, v => CustomerDefect(v, i, parses))
    ensures MappedRows(i, parses) == CountWhere(i.retainedRows, v => RowMapped(v, i, parses))
  {
    var judge := RowJudge(ContextOf(i, parses));
    forall v | v in i.retainedRows
      ensures judge(v).Some? && judge(v).value.counter == InvalidPolicy <==> PolicyDefect(v, i, parses)
      ensures judge(v).Some? && judge(v).value.counter == InvalidCustomer <==> CustomerDefect(v, i, parses)
      ensures judge(v).None? <==> RowMapped(v, i, parses)
    {
      CountedUnder(i, v, parses);
    }
    CountIs(i.retainedRows, judge, InvalidPolicy, v => PolicyDefect(v, i, parses));
    CountIs(i.retainedRows, judge, InvalidCustomer, v => CustomerDefect(v, i, parses));
    MissingIs(i.retainedRows, judge, v => RowMapped(v, i, parses));
  }

  /** An input that cannot be read counts as one bad customer. */
  lemma UnreadableCounts(input: Value, parses: string -> bool)
    requires ParseInput(input).None?
    ensures var r := Evaluated(input, parses);
            && r.totalRows == 0 && r.mappedRows == 0 && r.unmappedRows == 0 && r.ambiguousRows == 0
            && r.invalidCustomerRows == 1 && r.invalidPolicyRows == 0 && r.retrievalBlockedRows == 0
            && r.relationConflicts == 0 && r.uniquenessConflicts == 0 && !r.enforceReadiness
  {
    var log := [Finding(InvalidCustomer, InvalidPreflightInput)];
    assert log[..0] == [];
    forall c: Counter
      ensures Count(log, c) == if c == InvalidCustomer then 1 else 0
    {
      CountOne(Some(log[0]), c);
    }
  }

  /** What the counters for all rows, mapped rows, bad policies and bad customers count. */
  lemma CountersAre(i: Input, parses: string -> bool)
    ensures var r := EvaluatedInput(i, parses);
            && r.totalRows == |i.retainedRows|
            && r.mappedRows == CountWhere(i.retainedRows, v => RowMapped(v, i, parses))
            && r.invalidPolicyRows == CountWhere(i.retainedRows, v => PolicyDefect(v, i, parses))
            && |RootTexts(i)| <= |i.customerRoots|
            && r.invalidCustomerRows == (|i.customerRoots| - |RootTexts(i)|)
                                        + CountWhere(i.approvedMappings, m => Rejected(m, i))
                                        + CountWhere(i.retainedRows, v => CustomerDefect(v, i, parses))
            && r.relationConflicts == CountWhere(i.relations, r => !Within(r))
  {
    RowCountsAre(i, parses);
    EntriesCounted(i);
    RootsCounted(i);
    RelationsCounted(i);
    CountOfFive(i, parses, InvalidPolicy);
    CountOfFive(i, parses, InvalidCustomer);
    CountOfFive(i, parses, RelationConflict);
    RootsCountNone(i.customerRoots, InvalidPolicy);
    RootsCountNone(i.customerRoots, RelationConflict);
    EntriesCountNone(i, InvalidPolicy);
    EntriesCountNone(i, RelationConflict);
    RowsCountNone(i, parses, RelationConflict);
    RelationsCountNone(i.relations, InvalidPolicy);
    RelationsCountNone(i.relations, InvalidCustomer);
    KeysCountNone(i.scopedKeys, InvalidPolicy);
    KeysCountNone(i.scopedKeys, InvalidCustomer);
    KeysCountNone(i.scopedKeys, RelationConflict);
  }

  lemma CountOfFive(i: Input, parses: string -> bool, c: Counter)
    ensures Count(Log(i, parses), c) ==
            Count(RootLog(i.customerRoots), c) + Count(EntryLog(i), c) + Count(RowLog(i, parses), c)
            + Count(Collect(i.relations, RelationFinding), c) + Count(KeyLog(i.scopedKeys), c)
  {
    var a, b, d, e, k := RootLog(i.customerRoots), EntryLog(i), RowLog(i, parses), Collect(i.relations, RelationFinding),
                         KeyLog(i.scopedKeys);
    CountConcat(a + b + d + e, k, c);
    CountConcat(a + b + d, e, c);
    CountConcat(a + b, d, c);
    CountConcat(a, b, c);
  }

  lemma RowsCountNone(i: Input, parses: string -> bool, c: Counter)
    requires c == RelationConflict || c == UniquenessConflict
    ensures Count(RowLog(i, parses), c) == 0
  {
    forall f | f in RowLog(i, parses)
      ensures f.counter != c
    {
      RowCounters(i, parses, f);
    }
    CountNone(RowLog(i, parses), c);
  }

  lemma EntriesCounted(i: Input)
    ensures Count(EntryLog(i), InvalidCustomer) == CountWhere(i.approvedMappings, m => Rejected(m, i))
  {
    var judge := EntryJudge(RetainedKeys(i.retainedRows));
    forall m | m in i.approvedMappings
      ensures judge(m).Some? && judge(m).value.counter == InvalidCustomer <==> Rejected(m, i)
    {
      RejectedIs(i, m);
    }
    CountIs(i.approvedMappings, judge, InvalidCustomer, m => Rejected(m, i));
  }

  lemma RootsCounted(i: Input)
    ensures |RootTexts(i)| <= |i.customerRoots|
    ensures Count(RootLog(i.customerRoots), InvalidCustomer) == |i.customerRoots| - |RootTexts(i)|
  {
    RootTextsAre(i);
    DistinctIff(i.customerRoots, RootName);
    var n := |i.customerRoots| - |RootTexts(i)|;
    RepeatedOnly(ROOT_FINDING, n);
    CountOnly(RootLog(i.customerRoots), InvalidCustomer);
  }

  lemma {:induction false} CountOnly(log: seq<Finding>, c: Counter)
    requires forall f :: f in log ==> f.counter == c
    ensures Count(log, c) == |log|
  {
    if log != [] {
      CountOnly(log[..|log| - 1], c);
    }
  }

  lemma RelationsCounted(i: Input)
    ensures Count(Collect(i.relations, RelationFinding), RelationConflict) == CountWhere(i.relations, r => !Within(r))
  {
    forall r | r in i.relations
      ensures RelationFinding(r).Some? && RelationFinding(r).value.counter == RelationConflict <==> !Within(r)
    {
      WithinIs(r);
    }
    CountIs(i.relations, RelationFinding, RelationConflict, r => !Within(r));
  }

  /** The keys of one group, and those of none. */
  function InGroup(group: Value -> Option<string>, g: Option<string>): Value -> bool {
    k => group(k) == g
  }

  lemma {:induction false} GroupCount(keys: seq<Value>, group: Value -> Option<string>, g: string)
    ensures multiset(Collect(keys, group))[g] == CountWhere(keys, InGroup(group, Some(g)))
  {
    if keys != [] {
      GroupCount(keys[..|keys| - 1], group, g);
      CountWhereNext(keys, InGroup(group, Some(g)));
    }
  }

  lemma SharedAre(keys: seq<Value>, group: Value -> Option<string>, g: string)
    ensures Ungrouped(keys, group) == CountWhere(keys, InGroup(group, None))
    ensures g in Shared(Collect(keys, group)) <==> CountWhere(keys, InGroup(group, Some(g))) > 1
  {
    MissingIs(keys, group, InGroup(group, None));
    GroupCount(keys, group, g);
  }

  /** What the counter of scoped keys counts: keys without a group, and groups that more
      than one key has. */
  lemma KeyConflictsAre(i: Input, parses: string -> bool, g: string)
    ensures EvaluatedInput(i, parses).uniquenessConflicts ==
            CountWhere(i.scopedKeys, InGroup(ScopedKeyGroup, None)) + |Shared(Collect(i.scopedKeys, ScopedKeyGroup))|
    ensures g in Shared(Collect(i.scopedKeys, ScopedKeyGroup)) <==>
            CountWhere(i.scopedKeys, InGroup(ScopedKeyGroup, Some(g))) > 1
  {
    SharedAre(i.scopedKeys, ScopedKeyGroup, g);
    KeyLogCount(i, parses);
  }

  /** Which scoped keys have a group. */
  lemma GroupedIff(key: Value)
    ensures ScopedKeyGroup(key).Some? <==>
            && HasText(Field(key, "customerId"))
            && (|| (&& Field(key, "kind") == Some(Text("knowledge-source-version"))
                    && HasText(Field(key, "sourceKey")) && HasText(Field(key, "version")))
                || (&& Field(key, "kind") == Some(Text("idempotency")) && HasText(Field(key, "idempotencyKey"))
                    && (|| Field(key, "recordType") == Some(Text("ToolCall"))
                        || Field(key, "recordType") == Some(Text("ApprovalRequest"))
                        || Field(key, "recordType") == Some(Text("ActionDraft")))))
  {
    TextIs(Field(key, "customerId"));
    TextIs(Field(key, "sourceKey"));
    TextIs(Field(key, "version"));
    TextIs(Field(key, "idempotencyKey"));
  }

  lemma KeyLogCount(i: Input, parses: string -> bool)
    ensures Count(Log(i, parses), UniquenessConflict) ==
            Ungrouped(i.scopedKeys, ScopedKeyGroup) + SharedGroups(i.scopedKeys, ScopedKeyGroup)
  {
    KeyLogOnly(i.scopedKeys);
    OthersCountNone(i, parses);
    CountOfFive(i, parses, UniquenessConflict);
  }

  lemma KeyLogOnly(keys: seq<Value>)
    ensures Count(KeyLog(keys), UniquenessConflict) ==
            Ungrouped(keys, ScopedKeyGroup) + SharedGroups(keys, ScopedKeyGroup)
  {
    RepeatedOnly(KEY_FINDING, Ungrouped(keys, ScopedKeyGroup) + SharedGroups(keys, ScopedKeyGroup));
    CountOnly(KeyLog(keys), UniquenessConflict);
  }

  lemma OthersCountNone(i: Input, parses: string -> bool)
    ensures Count(RootLog(i.customerRoots), UniquenessConflict) == 0 && Count(EntryLog(i), UniquenessConflict) == 0
    ensures Count(RowLog(i, parses), UniquenessConflict) == 0
    ensures Count(Collect(i.relations, RelationFinding), UniquenessConflict) == 0
  {
    RootsCountNone(i.customerRoots, UniquenessConflict);
    EntriesCountNone(i, UniquenessConflict);
    RowsCountNone(i, parses, UniquenessConflict);
    RelationsCountNone(i.relations, UniquenessConflict);
  }

  // -------------------------------------------------------------------- The reasons

  /** Everything that can give a reason. */
  ghost predicate Cause(i: Input, parses: string -> bool, reason: Reason) {
    || (reason == InvalidPreflightInput && |RootTexts(i)| < |i.customerRoots|)
    || (exists m :: m in i.approvedMappings && EntryCause(m, i, reason))
    || (exists v :: v in i.retainedRows && RowCause(v, i, parses, reason))
    || (reason == CrossCustomerRelation && exists r :: r in i.relations && !Within(r))
    || (reason == CustomerScopedUniquenessConflict && !Distinct(i.scopedKeys, ScopedKeyGroup))
  }

  /** A reason is reported exactly when something in the input gives it. */
  lemma ReasonsAre(input: Value, parses: string -> bool, reason: Reason)
    ensures reason in Evaluated(input, parses).blockingReasons <==>
            match ParseInput(input)
            case None => reason == InvalidPreflightInput
            case Some(i) => Cause(i, parses, reason)
  {
    match ParseInput(input)
    case None => UnreadableReasons(reason);
    case Some(i) => InputReasons(i, parses, reason);
  }

  lemma UnreadableReasons(reason: Reason)
    ensures reason in ReportOf([Finding(InvalidCustomer, InvalidPreflightInput)], 0, 0, 0).blockingReasons <==>
            reason == InvalidPreflightInput
  {
    ListedGives([Finding(InvalidCustomer, InvalidPreflightInput)], 0, 0, 0, reason);
  }

  lemma ListedGives(log: seq<Finding>, total: nat, mapped: nat, blocked: nat, reason: Reason)
    ensures reason in ReportOf(log, total, mapped, blocked).blockingReasons <==> Gives(log, reason)
  {
    ListedIff(log, reason);
  }

  lemma InputReasons(i: Input, parses: string -> bool, reason: Reason)
    ensures reason in EvaluatedInput(i, parses).blockingReasons <==> Cause(i, parses, reason)
  {
    ListedGives(Log(i, parses), |i.retainedRows|, MappedRows(i, parses), |Blocked(i, parses)|, reason);
    LogReasons(i, parses, reason);
  }

  ghost predicate Gives(log: seq<Finding>, reason: Reason) {
    exists f :: f in log && f.reason == reason
  }

  lemma LogReasons(i: Input, parses: string -> bool, reason: Reason)
    ensures Gives(Log(i, parses), reason) <==> Cause(i, parses, reason)
  {
    RootReasons(i, reason);
    EntryReasons(i, reason);
    RowReasons(i, parses, reason);
    RelationReasons(i, reason);
    KeyReasons(i, reason);
    FiveGive(RootLog(i.customerRoots), EntryLog(i), RowLog(i, parses), Collect(i.relations, RelationFinding),
             KeyLog(i.scopedKeys), reason);
  }

  lemma FiveGive(a: seq<Finding>, b: seq<Finding>, c: seq<Finding>, d: seq<Finding>, e: seq<Finding>, reason: Reason)
    ensures Gives(a + b + c + d + e, reason) <==>
            Gives(a, reason) || Gives(b, reason) || Gives(c, reason) || Gives(d, reason) || Gives(e, reason)
  {
    assert forall f :: f in a + b + c + d + e <==> f in a || f in b || f in c || f in d || f in e;
  }

  lemma RootReasons(i: Input, reason: Reason)
    ensures Gives(RootLog(i.customerRoots), reason) <==> reason == InvalidPreflightInput && |RootTexts(i)| < |i.customerRoots|
  {
    RootTextsAre(i);
    DistinctIff(i.customerRoots, RootName);
    RepeatedOnly(ROOT_FINDING, |i.customerRoots| - |RootTexts(i)|);
    if |RootTexts(i)| < |i.customerRoots| {
      assert RootLog(i.customerRoots)[0] in RootLog(i.customerRoots);
    }
  }

  /** The reasons collected from the elements of a list are those of its elements. */
  lemma CollectedGives<T>(s: seq<T>, judge: T -> Option<Finding>, reason: Reason, cause: T -> bool)
    requires forall x :: x in s ==> (judge(x).Some? && judge(x).value.reason == reason <==> cause(x))
    ensures Gives(Collect(s, judge), reason) <==> exists x :: x in s && cause(x)
  {
    if f :| f in Collect(s, judge) && f.reason == reason {
      var x := CollectFrom(s, judge, f);
      assert cause(x);
    }
    if x :| x in s && cause(x) {
      CollectHas(s, judge, x);
    }
  }

  lemma EntryReasons(i: Input, reason: Reason)
    ensures Gives(EntryLog(i), reason) <==> exists m :: m in i.approvedMappings && EntryCause(m, i, reason)
  {
    var judge := EntryJudge(RetainedKeys(i.retainedRows));
    forall m | m in i.approvedMappings
      ensures judge(m).Some? && judge(m).value.reason == reason <==> EntryCause(m, i, reason)
    {
      EntryFindingIs(i, m, reason);
    }
    CollectedGives(i.approvedMappings, judge, reason, m => EntryCause(m, i, reason));
  }

  lemma RowReasons(i: Input, parses: string -> bool, reason: Reason)
    ensures Gives(RowLog(i, parses), reason) <==> exists v :: v in i.retainedRows && RowCause(v, i, parses, reason)
  {
    var judge := RowJudge(ContextOf(i, parses));
    forall v | v in i.retainedRows
      ensures judge(v).Some? && judge(v).value.reason == reason <==> RowCause(v, i, parses, reason)
    {
      RowFindingIs(i, v, parses, reason);
    }
    CollectedGives(i.retainedRows, judge, reason, v => RowCause(v, i, parses, reason));
  }

  lemma RelationReasons(i: Input, reason: Reason)
    ensures Gives(Collect(i.relations, RelationFinding), reason) <==>
            reason == CrossCustomerRelation && exists r :: r in i.relations && !Within(r)
  {
    forall r | r in i.relations
      ensures RelationFinding(r).Some? && RelationFinding(r).value.reason == reason <==>
              reason == CrossCustomerRelation && !Within(r)
    {
      WithinIs(r);
    }
    CollectedGives(i.relations, RelationFinding, reason, r => reason == CrossCustomerRelation && !Within(r));
  }

  lemma KeyReasons(i: Input, reason: Reason)
    ensures Gives(KeyLog(i.scopedKeys), reason) <==>
            reason == CustomerScopedUniquenessConflict && !Distinct(i.scopedKeys, ScopedKeyGroup)
  {
    KeyLogEmpty(i.scopedKeys);
    RepeatedOnly(KEY_FINDING, Ungrouped(i.scopedKeys, ScopedKeyGroup) + SharedGroups(i.scopedKeys, ScopedKeyGroup));
    if KeyLog(i.scopedKeys) != [] {
      assert KeyLog(i.scopedKeys)[0] in KeyLog(i.scopedKeys);
    }
  }

  /** The blocked documents are those without exactly one flawless mapping, each key once. */
  lemma BlockedAre(i: Input, parses: string -> bool, key: string)
    ensures EvaluatedInput(i, parses).retrievalBlockedRows == |Blocked(i, parses)|
    ensures key in Blocked(i, parses) <==>
            exists v, row :: && v in i.retainedRows && Names(v, row) && row.recordType == "KnowledgeDocument"
                             && key == KeyText(row) && !RowMapped(v, i, parses)
  {
    BlockedDocuments(i, parses, key);
    if key in Blocked(i, parses) {
      var v :| v in i.retainedRows && KeyOf(v) == Some(key) && IsDocument(ParseRow(v).value)
               && HasKnownRow(v) && RowFinding(v, ContextOf(i, parses)).Some?;
      NamesIs(v, ParseRow(v).value);
      RowFindingIs(i, v, parses, InvalidPreflightInput);
      assert KeyText(ParseRow(v).value) == RowKey(ParseRow(v).value);
    }
    forall v, row | v in i.retainedRows && Names(v, row) && row.recordType == "KnowledgeDocument"
                    && key == KeyText(row) && !RowMapped(v, i, parses)
      ensures key in Blocked(i, parses)
    {
      BlockedHas(i, parses, key, v, row);
    }
  }

  lemma BlockedHas(i: Input, parses: string -> bool, key: string, v: Value, row: Row)
    requires v in i.retainedRows && Names(v, row) && row.recordType == "KnowledgeDocument"
    requires key == KeyText(row) && !RowMapped(v, i, parses)
    ensures key in Blocked(i, parses)
  {
    DocumentsAreKnown();
    NamesIs(v, row);
    RowFindingIs(i, v, parses, InvalidPreflightInput);
    assert key == RowKey(row);
    assert BlockedKey(v, ContextOf(i, parses)) == Some(key);
    CollectHas(i.retainedRows, BlockJudge(ContextOf(i, parses)), v);
  }
}
