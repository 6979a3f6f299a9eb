/**
 The tool contract: what is stored with a draft or an approval request when it is
 created, what is read back when it is decided, and the gate that compares it with
 the latest registered tool.
 */
module ToolContract {
  import opened Prelude
  import opened Json

  datatype Operation = Read | CreateOp | UpdateOp | DeleteOp | Export | ApproveOp | Other

  datatype Risk = Low | Medium | High | Critical

  datatype Tool = Tool(
    id: string, key: string, version: string, operation: Operation, risk: Risk,
    hasSideEffect: bool, requiresConfirmation: bool, requiresApproval: bool)

  datatype Flow = Confirmation | Approval

  datatype Denial = NotExecutable | ContractMismatch

  /** A contract read back from JSON: any field may be missing or of another type. */
  datatype Partial = Partial(
    id: Option<string>, key: Option<string>, version: Option<string>,
    operation: Option<Operation>, risk: Option<Risk>,
    hasSideEffect: Option<bool>, requiresConfirmation: Option<bool>, requiresApproval: Option<bool>)

  /** What the guard receives from the service that decides the item. */
  datatype GuardInput = GuardInput(
    expected: Option<Partial>, operation: Operation, risk: Risk,
    requiresConfirmation: bool, requiresApproval: bool)

  function OperationName(op: Operation): string {
    match op
    case Read => "read"
    case CreateOp => "create"
    case UpdateOp => "update"
    case DeleteOp => "delete"
    case Export => "export"
    case ApproveOp => "approve"
    case Other => "other"
  }

  const OPERATIONS := [Read, CreateOp, UpdateOp, DeleteOp, Export, ApproveOp, Other]

  function RiskName(risk: Risk): string {
    match risk
    case Low => "low"
    case Medium => "medium"
    case High => "high"
    case Critical => "critical"
  }

  const RISKS := [Low, Medium, High, Critical]

  /** `Object.values(Enum).find(...)`. */
  function FindOperation(from: seq<Operation>, name: Option<string>): Option<Operation> {
    if from == [] then None
    else if name == Some(OperationName(from[0])) then Some(from[0])
    else FindOperation(from[1..], name)
  }

  function FindRisk(from: seq<Risk>, name: Option<string>): Option<Risk> {
    if from == [] then None
    else if name == Some(RiskName(from[0])) then Some(from[0])
    else FindRisk(from[1..], name)
  }

  // ------------------------------------------------------------- Creation time

  /** The resolver's checks on the tool selected for a new item. */
  function ResolveSelected(registered: Option<Tool>, expectedRisk: Risk, flow: Flow): Result<Tool, Denial> {
    if registered.None? then Err(NotExecutable)
    else
      var tool := registered.value;
      if !tool.hasSideEffect || tool.risk != expectedRisk then Err(ContractMismatch)
      else if flow == Confirmation && (!tool.requiresConfirmation || tool.requiresApproval) then Err(ContractMismatch)
      else if flow == Approval && !tool.requiresApproval then Err(ContractMismatch)
      else Ok(tool)
  }

  function Persisted(tool: Tool): Value {
    Object(map[
      "toolDefinitionId" := Text(tool.id),
      "toolName" := Text(tool.key),
      "toolVersion" := Text(tool.version),
      "operation" := Text(OperationName(tool.operation)),
      "riskLevel" := Text(RiskName(tool.risk)),
      "hasSideEffect" := Bool(tool.hasSideEffect),
      "requiresConfirmation" := Bool(tool.requiresConfirmation),
      "requiresApproval" := Bool(tool.requiresApproval)])
  }

  /** A stored summary: other fields and the contract. */
  function Summary(tool: Tool, others: map<string, Value>): Value {
    Object(others["toolContract" := Persisted(tool)])
  }

  /** An approval request's action summary also keeps the tool's name and operation. */
  function ActionSummary(tool: Tool, others: map<string, Value>): Value {
    Summary(tool, others["toolName" := Text(tool.key)]["operation" := Text(OperationName(tool.operation))])
  }

  // ------------------------------------------------------------- Decision time

  function Extract(summary: Value): Option<Partial> {
    var contract := Field(summary, "toolContract");
    if contract.None? || !contract.value.Object? then None
    else
      var c := contract.value;
      Some(Partial(
        TextField(c, "toolDefinitionId"), TextField(c, "toolName"), TextField(c, "toolVersion"),
        FindOperation(OPERATIONS, TextField(c, "operation")), FindRisk(RISKS, TextField(c, "riskLevel")),
        BoolField(c, "hasSideEffect"), BoolField(c, "requiresConfirmation"), BoolField(c, "requiresApproval")))
  }

  /** The guard input of a draft; the row keeps operation and risk in its own columns. */
  function DraftInput(recorded: Tool, others: map<string, Value>): GuardInput {
    GuardInput(Extract(Summary(recorded, others)), recorded.operation, recorded.risk, true, false)
  }

  /** The guard input of an approval request; the operation is read back from the
      action summary, and its absence is a denial. */
  function ApprovalInput(actionSummary: Value, risk: Risk): Result<GuardInput, Denial> {
    var operation := FindOperation(OPERATIONS, TextField(actionSummary, "operation"));
    if operation.None? then Err(ContractMismatch)
    else Ok(GuardInput(Extract(actionSummary), operation.value, risk, false, true))
  }

  predicate DiffersText(expected: Option<string>, actual: string) {
    expected.Some? && expected.value != "" && expected.value != actual
  }

  function Validate(input: GuardInput, tool: Tool): Option<Denial> {
    if input.expected.Some? && DiffersText(input.expected.value.id, tool.id) then Some(ContractMismatch)
    else if input.expected.Some? && DiffersText(input.expected.value.key, tool.key) then Some(ContractMismatch)
    else if input.expected.Some? && DiffersText(input.expected.value.version, tool.version) then Some(ContractMismatch)
    else if input.expected.Some? && input.expected.value.operation !in {None, Some(tool.operation)} then
      Some(ContractMismatch)
    else if input.expected.Some? && input.expected.value.risk !in {None, Some(tool.risk)} then
      Some(ContractMismatch)
    else if input.expected.Some? && input.expected.value.hasSideEffect !in {None, Some(tool.hasSideEffect)} then
      Some(ContractMismatch)
    else if input.expected.Some?
         && input.expected.value.requiresConfirmation !in {None, Some(tool.requiresConfirmation)} then
      Some(ContractMismatch)
    else if input.expected.Some? && input.expected.value.requiresApproval !in {None, Some(tool.requiresApproval)} then
      Some(ContractMismatch)
    else if !tool.hasSideEffect then Some(ContractMismatch)
    else if input.requiresConfirmation && !tool.requiresConfirmation then Some(ContractMismatch)
    else if input.requiresApproval && !tool.requiresApproval then Some(ContractMismatch)
    else if tool.operation != input.operation then Some(ContractMismatch)
    else if tool.risk != input.risk then Some(ContractMismatch)
    else None
  }

  // ---------------------------------------------------------------- Properties

  /** The two tools agree on all eight contract fields. */
  predicate SameContract(a: Tool, b: Tool) {
    && a.id == b.id && a.key == b.key && a.version == b.version
    && a.operation == b.operation && a.risk == b.risk && a.hasSideEffect == b.hasSideEffect
    && a.requiresConfirmation == b.requiresConfirmation && a.requiresApproval == b.requiresApproval
  }

  /** As SameContract, but a text that was recorded empty is not compared. */
  predicate SameRecordedContract(recorded: Tool, latest: Tool) {
    && (recorded.id != "" ==> recorded.id == latest.id)
    && (recorded.key != "" ==> recorded.key == latest.key)
    && (recorded.version != "" ==> recorded.version == latest.version)
    && SameContract(recorded, latest.(id := recorded.id, key := recorded.key, version := recorded.version))
  }

  /** A new item gets the registered tool exactly when the tool has a side effect, the risk
      asked for and the flags of its flow. */
  lemma ResolvedIff(registered: Option<Tool>, risk: Risk, flow: Flow, tool: Tool)
    ensures ResolveSelected(registered, risk, flow) == Ok(tool) <==>
            && registered == Some(tool) && tool.hasSideEffect && tool.risk == risk
            && (flow == Confirmation ==> tool.requiresConfirmation && !tool.requiresApproval)
            && (flow == Approval ==> tool.requiresApproval)
    ensures ResolveSelected(registered, risk, flow) == Err(NotExecutable) <==> registered.None?
  {
  }

  lemma OperationFound(op: Operation)
    ensures FindOperation(OPERATIONS, Some(OperationName(op))) == Some(op)
  {
    FindOperationSkips(OPERATIONS, op, 0);
  }

  /** Names are pairwise different, so the search stops at the operation itself. */
  lemma {:induction false} FindOperationSkips(from: seq<Operation>, op: Operation, k: nat)
    requires k <= |OPERATIONS| && from == OPERATIONS[k..] && op in from
    ensures FindOperation(from, Some(OperationName(op))) == Some(op)
    decreases |from|
  {
    if from[0] == op {
    } else {
      NamesDiffer(from[0], op);
      assert from[1..] == OPERATIONS[k + 1..];
      FindOperationSkips(from[1..], op, k + 1);
    }
  }

  lemma NamesDiffer(a: Operation, b: Operation)
    requires a != b
    ensures OperationName(a) != OperationName(b)
  {
    assert OperationName(a)[0] != OperationName(b)[0] || |OperationName(a)| != |OperationName(b)|;
  }

  lemma RiskFound(risk: Risk)
    ensures FindRisk(RISKS, Some(RiskName(risk))) == Some(risk)
  {
    assert RiskName(Low)[0] == 'l' && RiskName(Medium)[0] == 'm' && RiskName(High)[0] == 'h' && RiskName(Critical)[0] == 'c';
    assert RISKS[1..] == [Medium, High, Critical];
    assert RISKS[1..][1..] == [High, Critical];
    assert RISKS[1..][1..][1..] == [Critical];
  }

  /** Every stored field is found under its own name. */
  lemma PersistedFields(tool: Tool)
    ensures var c := Persisted(tool);
            && Field(c, "toolDefinitionId") == Some(Text(tool.id))
            && Field(c, "toolName") == Some(Text(tool.key))
            && Field(c, "toolVersion") == Some(Text(tool.version))
            && Field(c, "operation") == Some(Text(OperationName(tool.operation)))
            && Field(c, "riskLevel") == Some(Text(RiskName(tool.risk)))
            && Field(c, "hasSideEffect") == Some(Bool(tool.hasSideEffect))
            && Field(c, "requiresConfirmation") == Some(Bool(tool.requiresConfirmation))
            && Field(c, "requiresApproval") == Some(Bool(tool.requiresApproval))
  {
    assert |"toolDefinitionId"| == 16 && |"toolName"| == 8 && |"toolVersion"| == 11 && |"operation"| == 9;
    assert |"riskLevel"| == 9 && |"hasSideEffect"| == 13 && |"requiresConfirmation"| == 20 && |"requiresApproval"| == 16;
    assert "operation"[0] != "riskLevel"[0];
    assert "toolDefinitionId"[0] != "requiresApproval"[0];
  }

  /** Reading a stored contract back yields every field of the tool it was written from. */
  lemma ExtractInvertsPersist(tool: Tool, others: map<string, Value>)
    ensures Extract(Summary(tool, others)) == Some(Partial(
              Some(tool.id), Some(tool.key), Some(tool.version), Some(tool.operation), Some(tool.risk),
              Some(tool.hasSideEffect), Some(tool.requiresConfirmation), Some(tool.requiresApproval)))
  {
    PersistedFields(tool);
    OperationFound(tool.operation);
    RiskFound(tool.risk);
    assert Field(Summary(tool, others), "toolContract") == Some(Persisted(tool));
  }

  /** A draft's contract gate passes exactly when the latest tool agrees with the one
      recorded at creation; a text recorded empty is the only field it lets differ. */
  lemma DraftGateIff(recorded: Tool, latest: Tool, others: map<string, Value>)
    requires ResolveSelected(Some(recorded), Medium, Confirmation) == Ok(recorded)
    ensures Validate(DraftInput(recorded, others), latest).None? <==> SameRecordedContract(recorded, latest)
    ensures recorded.id != "" && recorded.key != "" && recorded.version != "" ==>
      (Validate(DraftInput(recorded, others), latest).None? <==> SameContract(recorded, latest))
  {
    ExtractInvertsPersist(recorded, others);
  }

  /** The same for an approval request, whose operation is read back from JSON. */
  lemma ApprovalGateIff(recorded: Tool, latest: Tool, risk: Risk, others: map<string, Value>)
    requires ResolveSelected(Some(recorded), risk, Approval) == Ok(recorded)
    ensures var input := ApprovalInput(ActionSummary(recorded, others), recorded.risk);
            && input.Ok?
            && (Validate(input.value, latest).None? <==> SameRecordedContract(recorded, latest))
            && (recorded.id != "" && recorded.key != "" && recorded.version != "" ==>
                (Validate(input.value, latest).None? <==> SameContract(recorded, latest)))
  {
    ExtractInvertsPersist(recorded, others["toolName" := Text(recorded.key)]
                                          ["operation" := Text(OperationName(recorded.operation))]);
    OperationFound(recorded.operation);
    assert TextField(ActionSummary(recorded, others), "operation") == Some(OperationName(recorded.operation));
  }

  /** An empty recorded version lets a tool of another version through the gate. */
  lemma EmptyVersionIsNotCompared() returns (recorded: Tool, latest: Tool)
    ensures ResolveSelected(Some(recorded), Medium, Confirmation) == Ok(recorded)
    ensures recorded.version != latest.version
    ensures Validate(DraftInput(recorded, map[]), latest).None?
  {
    recorded := Tool("tool-1", "mock.orders.status.update", "", UpdateOp, Medium, true, true, false);
    latest := recorded.(version := "2.0.0");
    DraftGateIff(recorded, latest, map[]);
  }
}
