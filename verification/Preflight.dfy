/** The retained-data check that must pass before customer ownership is enforced. */
module Preflight {
  import opened Prelude
  import opened Json
  import opened Texts
  import opened Collecting
  import Policies

  // ------------------------------------------------------------------- Findings

  datatype Reason =
    | AmbiguousCustomerMapping
    | CrossCustomerRelation
    | CustomerRootNotFound
    | CustomerScopedUniquenessConflict
    | InvalidCustomerId
    | InvalidKnowledgePolicy
    | InvalidKnowledgeVisibility
    | InvalidMappingApproval
    | InvalidPreflightInput
    | MappingResourceMismatch
    | UnknownRecordType
    | UnmappedCustomer

  /** The safe reason codes in the alphabetical order of their names. */
  function SafeReasons(): seq<Reason> {
    [AmbiguousCustomerMapping, CrossCustomerRelation, CustomerRootNotFound, CustomerScopedUniquenessConflict,
     InvalidCustomerId, InvalidKnowledgePolicy, InvalidKnowledgeVisibility, InvalidMappingApproval,
     InvalidPreflightInput, MappingResourceMismatch, UnknownRecordType, UnmappedCustomer]
  }

  datatype Counter = Unmapped | Ambiguous | InvalidCustomer | InvalidPolicy | RelationConflict | UniquenessConflict

  /** One increment of a counter, with the reason that goes with it. */
  datatype Finding = Finding(counter: Counter, reason: Reason)

  const ROOT_FINDING := Finding(InvalidCustomer, InvalidPreflightInput)

  const KEY_FINDING := Finding(UniquenessConflict, CustomerScopedUniquenessConflict)

  function Count(log: seq<Finding>, c: Counter): nat {
    if log == [] then 0 else Count(log[..|log| - 1], c) + if log[|log| - 1].counter == c then 1 else 0
  }

  function Reasons(log: seq<Finding>): set<Reason> {
    set f | f in log :: f.reason
  }

  /** The reasons as the report lists them. */
  function Listed(reasons: set<Reason>, from: nat): seq<Reason>
    requires from <= |SafeReasons()|
    decreases |SafeReasons()| - from
  {
    if from == |SafeReasons()| then []
    else (if SafeReasons()[from] in reasons then [SafeReasons()[from]] else []) + Listed(reasons, from + 1)
  }

  datatype Report = Report(
    totalRows: nat, mappedRows: nat, unmappedRows: nat, ambiguousRows: nat, invalidCustomerRows: nat,
    invalidPolicyRows: nat, retrievalBlockedRows: nat, relationConflicts: nat, uniquenessConflicts: nat,
    enforceReadiness: bool, blockingReasons: seq<Reason>)

  // --------------------------------------------------------------------- Parsing

  datatype Input = Input(
    customerRoots: seq<Value>, retainedRows: seq<Value>, approvedMappings: seq<Value>,
    relations: seq<Value>, scopedKeys: seq<Value>)

  predicate IsList(v: Option<Value>) {
    v.Some? && v.value.Array?
  }

  function ParseInput(v: Value): Option<Input> {
    var roots, rows, mappings := Field(v, "customerRoots"), Field(v, "retainedRows"), Field(v, "approvedMappings");
    var relations, keys := Field(v, "relations"), Field(v, "scopedKeys");
    if !v.Object? || !IsList(roots) || !IsList(rows) || !IsList(mappings) || !IsList(relations) || !IsList(keys) then None
    else Some(Input(roots.value.elements, rows.value.elements, mappings.value.elements,
                    relations.value.elements, keys.value.elements))
  }

  /** The value as a string, if it is one that is not blank. */
  function NonBlank(v: Option<Value>): Option<string> {
    if v.Some? && v.value.Text? && !IsBlank(v.value.text) then Some(v.value.text) else None
  }

  function RootName(v: Value): Option<string> {
    NonBlank(Some(v))
  }

  datatype Row = Row(recordType: string, recordId: string)

  function ParseRow(v: Value): Option<Row> {
    var recordType, recordId := NonBlank(Field(v, "recordType")), NonBlank(Field(v, "recordId"));
    if !v.Object? || recordType.None? || recordId.None? then None else Some(Row(recordType.value, recordId.value))
  }

  /** The record types whose rows are retained. */
  function TypeName(k: nat): string {
    match k
    case 0 => "AssistantSession"
    case 1 => "AssistantMessage"
    case 2 => "AssistantContextState"
    case 3 => "ExecutionPlan"
    case 4 => "AnswerDecision"
    case 5 => "ClarificationQuestion"
    case 6 => "GroundingCheck"
    case 7 => "QueryUnderstandingResult"
    case 8 => "KnowledgeDocument"
    case 9 => "KnowledgeChunk"
    case 10 => "RetrievalRun"
    case 11 => "RetrievalCandidate"
    case 12 => "EvidenceRef"
    case 13 => "ToolCall"
    case 14 => "ApprovalRequest"
    case 15 => "ActionDraft"
    case 16 => "EscalationRequest"
    case 17 => "FeedbackEvent"
    case 18 => "ReviewItem"
    case _ => "AuditEvent"
  }

  predicate Listable(t: string, k: nat)
    decreases 20 - k
  {
    k < 20 && (t == TypeName(k) || Listable(t, k + 1))
  }

  predicate KnownType(t: string) {
    Listable(t, 0)
  }

  predicate IsDocument(row: Row) {
    row.recordType == "KnowledgeDocument"
  }

  function RowKey(row: Row): string {
    row.recordType + ['\0'] + row.recordId
  }

  function KeyOf(v: Value): Option<string> {
    var row := ParseRow(v);
    if row.Some? then Some(RowKey(row.value)) else None
  }

  // -------------------------------------------------------- Judging one element

  /** Why a mapping entry is rejected, if it is. */
  function EntryFinding(v: Value, retained: set<string>): Option<Finding> {
    var target := ParseRow(v);
    if target.None? then Some(Finding(InvalidCustomer, InvalidPreflightInput))
    else if !KnownType(target.value.recordType) then Some(Finding(InvalidCustomer, UnknownRecordType))
    else if RowKey(target.value) !in retained then Some(Finding(InvalidCustomer, MappingResourceMismatch))
    else None
  }

  function EntryJudge(retained: set<string>): Value -> Option<Finding> {
    v => EntryFinding(v, retained)
  }

  /** The entry itself if it was accepted for this key. */
  function EntryFor(v: Value, retained: set<string>, key: string): Option<Value> {
    if EntryFinding(v, retained).None? && KeyOf(v) == Some(key) then Some(v) else None
  }

  function EntrySelect(retained: set<string>, key: string): Value -> Option<Value> {
    v => EntryFor(v, retained, key)
  }

  /** The accepted entries for a key, in order. */
  function Entries(mappings: seq<Value>, retained: set<string>, key: string): seq<Value> {
    Collect(mappings, EntrySelect(retained, key))
  }

  predicate ApprovedTimestamp(v: Option<Value>, parses: string -> bool) {
    NonBlank(v).Some? && parses(NonBlank(v).value)
  }

  function PolicyReason(e: Policies.PolicyError): Reason {
    match e
    case InvalidVisibility => InvalidKnowledgeVisibility
    case InvalidPolicy => InvalidKnowledgePolicy
  }

  function ValidateMapping(mapping: Value, row: Row, roots: set<string>, parses: string -> bool): Option<Reason> {
    var customerId := NonBlank(Field(mapping, "customerId"));
    if ParseRow(mapping) != Some(row) then Some(MappingResourceMismatch)
    else if customerId.None? then Some(InvalidCustomerId)
    else if customerId.value !in roots then Some(CustomerRootNotFound)
    else if NonBlank(Field(mapping, "mappingSource")).None? || NonBlank(Field(mapping, "approvedBy")).None?
            || !ApprovedTimestamp(Field(mapping, "approvedAt"), parses) then Some(InvalidMappingApproval)
    else if !IsDocument(row) then None
    else
      var policy := Policies.NormalizeApproved(mapping);
      if policy.Ok? then None else Some(PolicyReason(policy.error))
  }

  function OutcomeFinding(reason: Reason): Finding {
    Finding(if reason == InvalidKnowledgePolicy || reason == InvalidKnowledgeVisibility then InvalidPolicy
            else InvalidCustomer, reason)
  }

  /** What the checks of one row depend on. */
  datatype Context = Context(
    roots: set<string>, mappings: seq<Value>, retained: set<string>, parses: string -> bool)

  /** What is wrong with a row of a known type, given the entries accepted for it. */
  function MappingFinding(row: Row, entries: seq<Value>, roots: set<string>, parses: string -> bool): Option<Finding> {
    if |entries| > 1 then Some(Finding(Ambiguous, AmbiguousCustomerMapping))
    else if |entries| == 0 then Some(Finding(Unmapped, UnmappedCustomer))
    else
      var outcome := ValidateMapping(entries[0], row, roots, parses);
      if outcome.Some? then Some(OutcomeFinding(outcome.value)) else None
  }

  function RowFinding(v: Value, c: Context): Option<Finding> {
    var row := ParseRow(v);
    if row.None? then Some(Finding(InvalidCustomer, InvalidPreflightInput))
    else if !KnownType(row.value.recordType) then Some(Finding(InvalidCustomer, UnknownRecordType))
    else MappingFinding(row.value, Entries(c.mappings, c.retained, RowKey(row.value)), c.roots, c.parses)
  }

  function RowJudge(c: Context): Value -> Option<Finding> {
    v => RowFinding(v, c)
  }

  /** The key of a document that retrieval must not read. */
  function BlockedKey(v: Value, c: Context): Option<string> {
    var row := ParseRow(v);
    if row.Some? && KnownType(row.value.recordType) && IsDocument(row.value) && RowFinding(v, c).Some?
    then Some(RowKey(row.value)) else None
  }

  function BlockJudge(c: Context): Value -> Option<string> {
    v => BlockedKey(v, c)
  }

  function RelationFinding(v: Value): Option<Finding> {
    var child, parent := NonBlank(Field(v, "childCustomerId")), NonBlank(Field(v, "parentCustomerId"));
    if !v.Object? || child.None? || parent.None? || child != parent
    then Some(Finding(RelationConflict, CrossCustomerRelation)) else None
  }

  predicate IdempotentType(t: Option<Value>) {
    t == Some(Text("ToolCall")) || t == Some(Text("ApprovalRequest")) || t == Some(Text("ActionDraft"))
  }

  function Joined(a: string, b: string, c: string, d: string): string {
    a + ['\0'] + b + ['\0'] + c + ['\0'] + d
  }

  function ScopedKeyGroup(key: Value): Option<string> {
    var customerId, kind := NonBlank(Field(key, "customerId")), Field(key, "kind");
    var sourceKey, version := NonBlank(Field(key, "sourceKey")), NonBlank(Field(key, "version"));
    var recordType, idempotencyKey := Field(key, "recordType"), NonBlank(Field(key, "idempotencyKey"));
    if !key.Object? || customerId.None? then None
    else if kind == Some(Text("knowledge-source-version")) && sourceKey.Some? && version.Some? then
      Some(Joined("knowledge", customerId.value, sourceKey.value, version.value))
    else if kind == Some(Text("idempotency")) && IdempotentType(recordType) && idempotencyKey.Some? then
      Some(Joined("idempotency", recordType.value.text, customerId.value, idempotencyKey.value))
    else None
  }

  // ------------------------------------------------------------- The whole check

  function RootSet(roots: seq<Value>): set<string> {
    Support(Collect(roots, RootName))
  }

  /** One finding for every root that is blank or was listed before. */
  function RootLog(roots: seq<Value>): seq<Finding> {
    DistinctIff(roots, RootName);
    Repeat(ROOT_FINDING, |roots| - |RootSet(roots)|)
  }

  function RetainedKeys(rows: seq<Value>): set<string> {
    Support(Collect(rows, KeyOf))
  }

  function ContextOf(i: Input, parses: string -> bool): Context {
    Context(RootSet(i.customerRoots), i.approvedMappings, RetainedKeys(i.retainedRows), parses)
  }

  function EntryLog(i: Input): seq<Finding> {
    Collect(i.approvedMappings, EntryJudge(RetainedKeys(i.retainedRows)))
  }

  function RowLog(i: Input, parses: string -> bool): seq<Finding> {
    Collect(i.retainedRows, RowJudge(ContextOf(i, parses)))
  }

  function Blocked(i: Input, parses: string -> bool): set<string> {
    Support(Collect(i.retainedRows, BlockJudge(ContextOf(i, parses))))
  }

  /** The groups that more than one scoped key belongs to. */
  function Shared(groups: seq<string>): set<string> {
    set g | g in groups && multiset(groups)[g] > 1
  }

  /** The keys that belong to no group. */
  function Ungrouped(keys: seq<Value>, group: Value -> Option<string>): nat {
    CollectSize(keys, group);
    |keys| - |Collect(keys, group)|
  }

  function SharedGroups(keys: seq<Value>, group: Value -> Option<string>): nat {
    |Shared(Collect(keys, group))|
  }

  /** One finding for every key without a group, one for every group used twice. */
  function KeyLog(keys: seq<Value>): seq<Finding> {
    Repeat(KEY_FINDING, Ungrouped(keys, ScopedKeyGroup) + SharedGroups(keys, ScopedKeyGroup))
  }

  function Log(i: Input, parses: string -> bool): seq<Finding> {
    RootLog(i.customerRoots) + EntryLog(i) + RowLog(i, parses)
    + Collect(i.relations, RelationFinding) + KeyLog(i.scopedKeys)
  }

  function ReportOf(log: seq<Finding>, totalRows: nat, mappedRows: nat, blockedRows: nat): Report {
    Report(totalRows, mappedRows, Count(log, Unmapped), Count(log, Ambiguous), Count(log, InvalidCustomer),
           Count(log, InvalidPolicy), blockedRows, Count(log, RelationConflict), Count(log, UniquenessConflict),
           Count(log, Unmapped) == 0 && Count(log, Ambiguous) == 0 && Count(log, InvalidCustomer) == 0
           && Count(log, InvalidPolicy) == 0 && blockedRows == 0 && Count(log, RelationConflict) == 0
           && Count(log, UniquenessConflict) == 0,
           Listed(Reasons(log), 0))
  }

  function MappedRows(i: Input, parses: string -> bool): nat {
    CollectSize(i.retainedRows, RowJudge(ContextOf(i, parses)));
    |i.retainedRows| - |RowLog(i, parses)|
  }

  function EvaluatedInput(i: Input, parses: string -> bool): Report {
    ReportOf(Log(i, parses), |i.retainedRows|, MappedRows(i, parses), |Blocked(i, parses)|)
  }

  /** The report, said without the order in which the lists are read. */
  function Evaluated(input: Value, parses: string -> bool): Report {
    var parsed := ParseInput(input);
    if parsed.None? then ReportOf([Finding(InvalidCustomer, InvalidPreflightInput)], 0, 0, 0)
    else EvaluatedInput(parsed.value, parses)
  }
}
