/**
 The shared tables of the side-effect workflow and the request processes that
 act on them. One process is one HTTP request; each of its steps is one database
 or connector call of the source, together with the local code that follows it.

 Store assumptions: a conditional `updateMany` is an atomic compare-and-set, a
 `$transaction` is all-or-nothing, primary keys are unique, and the key columns
 of ToolCall, ApprovalRequest and ActionDraft are unique per customer.
 */
module WorkflowStore {
  import opened Prelude

  /** Identifiers are opaque to the source, which only compares them. */
  type Id = nat

  datatype Owner = Owner(customer: Id, organization: Id, hostApp: Id, actor: Id)

  datatype Scope = Scope(owner: Owner, roles: set<string>, permissions: set<string>)

  datatype Kind = ActionDraft | ApprovalRequest | EscalationRequest

  datatype ItemRef = ItemRef(kind: Kind, id: Id)

  datatype Status =
    | Drafted | WaitingConfirmation | Confirmed | Executed
    | Pending | Approved | Rejected
    | Open | Resolved
    | Cancelled | Expired | Failed

  /** A row of ActionDraft, ApprovalRequest or EscalationRequest. `requester` and
      `decider` are the actor columns (for an escalation: the summary fields). */
  datatype Item = Item(
    customer: Id, session: Id, message: Option<Id>,
    requester: Id, decider: Option<Id>,
    status: Status, key: Option<string>, expiresAt: Option<int>)

  /** `author` is a history variable: the process that created the row. */
  datatype Message = Message(customer: Id, session: Id, author: nat)

  datatype Execution = InProgress | Succeeded | Unsuccessful

  /** `source` is the inputSummary's sourceType and sourceId. `creator` is a
      history variable: the process that created the row. */
  datatype ToolCall = ToolCall(
    customer: Id, session: Id, message: Option<Id>, key: Option<string>,
    source: Option<ItemRef>, execution: Execution, creator: nat)

  datatype Event =
    | DraftCreated | DraftConfirmed | DraftCancelled
    | ApprovalCreated | ApprovalApproved | ApprovalRejected | ApprovalCancelled
    | EscalationCreated | EscalationResolved | EscalationCancelled
    | SideEffectExecuted | SideEffectFailed | SideEffectDenied | SideEffectSkipped
    | PermissionDenied

  datatype AuditRow = AuditRow(
    event: Event, owner: Owner, session: Id, message: Option<Id>,
    toolCall: Option<Id>, item: ItemRef)

  /** One entry of the connector's call log. */
  datatype ConnectorCall = ConnectorCall(customer: Id, key: string, toolCall: Id, item: ItemRef)

  datatype Db = Db(
    sessions: map<Id, Owner>,
    messages: map<Id, Message>,
    toolCalls: map<Id, ToolCall>,
    items: map<ItemRef, Item>,
    audit: seq<AuditRow>,
    calls: seq<ConnectorCall>)

  const EMPTY_DB := Db(map[], map[], map[], map[], [], [])

  // ---------------------------------------------------------------- Requests

  datatype Operation =
    | Confirm | CancelDraft
    | Approve | Reject | CancelApproval
    | Resolve | CancelEscalation

  datatype Request =
    | Decide(op: Operation, id: Id, key: Option<string>)
    | Send(session: Id)

  datatype Outcome =
    | NotFound | Forbidden | Conflict | Refused | StorageError
    | AlreadyConfirmed | Replayed | Completed

  datatype Pc =
    | Start
    | Loaded(snap: Item)
    | Parents(snap: Item)
    | ParentMessage(snap: Item)
    | Gates(snap: Item)
    | Denied(snap: Item)
    | Lookup(snap: Item)
    | Skip(snap: Item, toolCall: Id)
    | Create(snap: Item)
    | Call(snap: Item, toolCall: Id)
    | Update(snap: Item, toolCall: Id, ok: bool)
    | Record(snap: Item, toolCall: Id, ok: bool)
    | Commit(snap: Item, backing: Option<Id>)
    | SendUser
    | SendReply(user: Id)
    | SendParents(user: Id, reply: Id, kind: Kind)
    | SendItem(reply: Id, kind: Kind)
    | Done(outcome: Outcome)

  datatype Proc = Proc(scope: Scope, request: Request, pc: Pc)

  datatype Gate = Pass | Refuse | RefusePermission

  /** What a step reads from outside: the clock, the next generated id, the
      verdict of the tool, contract and permission gates, the connector's result
      and the branch a planned message takes (None: it creates no item). */
  datatype Choice = Choice(now: int, newId: Id, gate: Gate, ok: bool, branch: Option<Kind>)

  function KindOf(op: Operation): Kind {
    match op
    case Confirm | CancelDraft => ActionDraft
    case Approve | Reject | CancelApproval => ApprovalRequest
    case Resolve | CancelEscalation => EscalationRequest
  }

  function Target(r: Request): ItemRef
    requires r.Decide?
  {
    ItemRef(KindOf(r.op), r.id)
  }

  function InitialStatus(kind: Kind): Status {
    match kind
    case ActionDraft => WaitingConfirmation
    case ApprovalRequest => Pending
    case EscalationRequest => Open
  }

  function NewStatus(op: Operation): Status {
    match op
    case Confirm => Executed
    case Approve => Approved
    case Reject => Rejected
    case Resolve => Resolved
    case CancelDraft | CancelApproval | CancelEscalation => Cancelled
  }

  function DecisionEvent(op: Operation): Event {
    match op
    case Confirm => DraftConfirmed
    case CancelDraft => DraftCancelled
    case Approve => ApprovalApproved
    case Reject => ApprovalRejected
    case CancelApproval => ApprovalCancelled
    case Resolve => EscalationResolved
    case CancelEscalation => EscalationCancelled
  }

  function CreationEvent(kind: Kind): Event {
    match kind
    case ActionDraft => DraftCreated
    case ApprovalRequest => ApprovalCreated
    case EscalationRequest => EscalationCreated
  }

  /** Milliseconds until a new item expires: 15 minutes, 1 hour, 24 hours. */
  function Lifetime(kind: Kind): int {
    match kind
    case ActionDraft => 15 * 60 * 1000
    case ApprovalRequest => 60 * 60 * 1000
    case EscalationRequest => 24 * 60 * 60 * 1000
  }

  /** JavaScript truthiness of an optional string. */
  predicate Present(key: Option<string>) {
    key.Some? && key.value != ""
  }

  predicate EndsWith(s: string, suffix: string) {
    |suffix| <= |s| && s[|s| - |suffix|..] == suffix
  }

  predicate HasApprovalAuthority(scope: Scope) {
    || "approver" in scope.roles
    || exists p :: p in scope.permissions && (p == "orders:approve" || EndsWith(p, ":approve"))
  }

  predicate HasEscalationAuthority(scope: Scope) {
    || "admin" in scope.roles
    || "approver" in scope.roles
    || exists p :: p in scope.permissions && (p == "escalation:manage" || p == "orders:approve")
  }

  predicate PastExpiry(snap: Item, now: int) {
    snap.expiresAt.Some? && snap.expiresAt.value <= now
  }

  /** The statuses that only a replay of the same decision may start from. */
  predicate IsReplay(snap: Item) {
    snap.status == Executed || snap.status == Approved
  }

  /** The two operations that run the side-effect guard. */
  predicate Guarded(op: Operation) {
    op == Confirm || op == Approve
  }

  // ------------------------------------------------------------- Table lookups

  predicate OwnsSession(db: Db, session: Id, owner: Owner) {
    session in db.sessions && db.sessions[session] == owner
  }

  predicate MessageInSession(db: Db, message: Id, customer: Id, session: Id) {
    && message in db.messages
    && db.messages[message].customer == customer
    && db.messages[message].session == session
  }

  predicate OptionalMessageInSession(db: Db, message: Option<Id>, customer: Id, session: Id) {
    message.Some? ==> MessageInSession(db, message.value, customer, session)
  }

  predicate HasKey(toolCalls: map<Id, ToolCall>, id: Id, customer: Id, key: string) {
    id in toolCalls && toolCalls[id].customer == customer && toolCalls[id].key == Some(key)
  }

  ghost predicate KeyTaken(toolCalls: map<Id, ToolCall>, customer: Id, key: string) {
    exists id :: HasKey(toolCalls, id, customer, key)
  }

  /** `toolCall.findFirst` by customer and key. */
  ghost function FindByKey(toolCalls: map<Id, ToolCall>, customer: Id, key: string): (id: Id)
    requires KeyTaken(toolCalls, customer, key)
    ensures HasKey(toolCalls, id, customer, key)
  {
    var id :| HasKey(toolCalls, id, customer, key); id
  }

  /** Whether writing `key` on row `ref` keeps the key column unique per customer. */
  predicate ItemKeyFree(items: map<ItemRef, Item>, ref: ItemRef, customer: Id, key: Option<string>) {
    forall other :: other in items && other != ref && other.kind == ref.kind
      && items[other].customer == customer && items[other].key.Some?
      ==> items[other].key != key
  }

  // --------------------------------------------------- The audit writer's check

  /** The session and message checks that can roll a workflow transaction back. */
  predicate AuditContextVisible(db: Db, owner: Owner, session: Id, message: Option<Id>) {
    && OwnsSession(db, session, owner)
    && OptionalMessageInSession(db, message, owner.customer, session)
  }

  function Append(db: Db, row: AuditRow): Db {
    db.(audit := db.audit + [row])
  }

  function SideEffectRow(event: Event, scope: Scope, ref: ItemRef, snap: Item, toolCall: Option<Id>): AuditRow {
    AuditRow(event, scope.owner, snap.session, snap.message, toolCall, ref)
  }

  // ------------------------------------------------------------- Decision steps

  /** The authority check of approve and reject, then the row lookup. */
  function StepStart(db: Db, scope: Scope, r: Request): Pc
    requires r.Decide?
  {
    if r.op in {Approve, Reject} && !HasApprovalAuthority(scope) then Done(Forbidden)
    else if Target(r) in db.items && db.items[Target(r)].customer == scope.owner.customer then
      Loaded(db.items[Target(r)])
    else Done(NotFound)
  }

  /** The actor whose session the load check looks for. */
  function SessionActor(scope: Scope, kind: Kind, snap: Item): Id {
    if kind == ActionDraft then scope.owner.actor else snap.requester
  }

  predicate VisibleToActor(scope: Scope, kind: Kind, snap: Item) {
    match kind
    case ActionDraft => snap.requester == scope.owner.actor
    case ApprovalRequest =>
      snap.requester == scope.owner.actor || snap.decider == Some(scope.owner.actor) || HasApprovalAuthority(scope)
    case EscalationRequest =>
      snap.requester == scope.owner.actor || snap.decider == Some(scope.owner.actor) || HasEscalationAuthority(scope)
  }

  function StepLoaded(db: Db, scope: Scope, r: Request, snap: Item, now: int): Pc
    requires r.Decide?
  {
    var kind := KindOf(r.op);
    if OwnsSession(db, snap.session, scope.owner.(actor := SessionActor(scope, kind, snap)))
       && VisibleToActor(scope, kind, snap)
    then Branch(scope, r.op, r.key, snap, now)
    else Done(NotFound)
  }

  /** The status and freshness checks between the load and the first effect. */
  function Branch(scope: Scope, op: Operation, key: Option<string>, snap: Item, now: int): Pc {
    match op
    case Confirm =>
      if snap.status == Executed then
        if Present(key) && snap.key == key then Parents(snap) else Done(Conflict)
      else if PastExpiry(snap, now) then Done(Conflict)
      else if snap.status == Confirmed && Present(key) && snap.key == key then Done(AlreadyConfirmed)
      else if snap.status in {Drafted, WaitingConfirmation} then Parents(snap)
      else Done(Conflict)
    case CancelDraft =>
      if snap.status in {Drafted, WaitingConfirmation} then Commit(snap, None) else Done(Conflict)
    case Approve =>
      if snap.status == Approved then
        if Present(key) && snap.key == key then Parents(snap) else Done(Conflict)
      else if PastExpiry(snap, now) || snap.status != Pending then Done(Conflict)
      else Parents(snap)
    case Reject =>
      if PastExpiry(snap, now) || snap.status != Pending then Done(Conflict) else Commit(snap, None)
    case CancelApproval =>
      if !VisibleToActor(scope, ApprovalRequest, snap) then Done(Forbidden)
      else if PastExpiry(snap, now) || snap.status != Pending then Done(Conflict)
      else Commit(snap, None)
    case Resolve =>
      if !HasEscalationAuthority(scope) then Done(Forbidden)
      else if snap.status != Open || PastExpiry(snap, now) then Done(Conflict)
      else Commit(snap, None)
    case CancelEscalation =>
      if snap.requester != scope.owner.actor && !HasEscalationAuthority(scope) then Done(Forbidden)
      else if snap.status != Open || PastExpiry(snap, now) then Done(Conflict)
      else Commit(snap, None)
  }

  function StepParents(db: Db, scope: Scope, snap: Item): Pc {
    if OwnsSession(db, snap.session, scope.owner) then ParentMessage(snap) else Done(NotFound)
  }

  function StepParentMessage(db: Db, scope: Scope, key: Option<string>, snap: Item): Pc {
    if !OptionalMessageInSession(db, snap.message, scope.owner.customer, snap.session) then Done(NotFound)
    else if !Present(key) then Denied(snap)
    else Gates(snap)
  }

  function StepGates(db: Db, scope: Scope, ref: ItemRef, snap: Item, gate: Gate): (Db, Pc) {
    match gate
    case Pass => (db, Lookup(snap))
    case Refuse => (db, Denied(snap))
    case RefusePermission =>
      (Append(db, SideEffectRow(PermissionDenied, scope, ref, snap, None)), Denied(snap))
  }

  ghost function StepLookup(db: Db, scope: Scope, key: string, snap: Item): Pc {
    if KeyTaken(db.toolCalls, scope.owner.customer, key) then
      var id := FindByKey(db.toolCalls, scope.owner.customer, key);
      if db.toolCalls[id].session == snap.session && db.toolCalls[id].message == snap.message
      then Skip(snap, id)
      else Done(NotFound)
    else Create(snap)
  }

  /** Where the guard's caller goes once the guard has returned. */
  function AfterGuard(snap: Item, toolCall: Id): Pc {
    if IsReplay(snap) then Done(Replayed) else Commit(snap, Some(toolCall))
  }

  ghost function StepCreate(db: Db, pid: nat, scope: Scope, ref: ItemRef, key: string, snap: Item, newId: Id): (Db, Pc) {
    if newId in db.toolCalls || KeyTaken(db.toolCalls, scope.owner.customer, key) then (db, Done(StorageError))
    else
      var row := ToolCall(scope.owner.customer, snap.session, snap.message, Some(key), Some(ref), InProgress, pid);
      (db.(toolCalls := db.toolCalls[newId := row]), Call(snap, newId))
  }

  function StepCall(db: Db, scope: Scope, ref: ItemRef, key: string, snap: Item, id: Id, ok: bool): (Db, Pc) {
    (db.(calls := db.calls + [ConnectorCall(scope.owner.customer, key, id, ref)]), Update(snap, id, ok))
  }

  function StepUpdate(db: Db, scope: Scope, snap: Item, id: Id, ok: bool): (Db, Pc) {
    if id in db.toolCalls && db.toolCalls[id].customer == scope.owner.customer then
      var row := db.toolCalls[id].(execution := if ok then Succeeded else Unsuccessful);
      (db.(toolCalls := db.toolCalls[id := row]), Record(snap, id, ok))
    else (db, Done(StorageError))
  }

  /** The row a decision writes. The key column takes the request's key, or the
      snapshot's when the request carries none. */
  function Decided(op: Operation, actor: Id, key: Option<string>, snap: Item, row: Item): Item {
    match op
    case Confirm => row.(status := Executed, key := if key.Some? then key else snap.key)
    case Approve => row.(status := Approved, decider := Some(actor), key := if key.Some? then key else snap.key)
    case Reject => row.(status := Rejected, decider := Some(actor))
    case CancelDraft | CancelApproval => row.(status := Cancelled)
    case Resolve =>
      row.(status := Resolved, decider := Some(actor), requester := snap.requester, expiresAt := snap.expiresAt)
    case CancelEscalation =>
      row.(status := Cancelled, decider := snap.decider, requester := snap.requester, expiresAt := snap.expiresAt)
  }

  /** The deciding transaction: compare-and-set on the snapshot's status, the key
      column's uniqueness, then the audit writer's context check. */
  function StepCommit(db: Db, scope: Scope, r: Request, snap: Item): (Db, Pc)
    requires r.Decide?
  {
    var ref := Target(r);
    if ref !in db.items || db.items[ref].customer != scope.owner.customer || db.items[ref].status != snap.status then
      (db, Done(Conflict))
    else
      var row := Decided(r.op, scope.owner.actor, r.key, snap, db.items[ref]);
      if Guarded(r.op) && !ItemKeyFree(db.items, ref, row.customer, row.key) then (db, Done(StorageError))
      else if !AuditContextVisible(db, scope.owner, row.session, row.message) then (db, Done(StorageError))
      else
        (Append(db.(items := db.items[ref := row]),
                AuditRow(DecisionEvent(r.op), scope.owner, row.session, row.message, None, ref)),
         Done(Completed))
  }

  // ----------------------------------------------------------------- Send steps

  function StepSendMessage(db: Db, pid: nat, scope: Scope, session: Id, newId: Id): Option<Db> {
    if newId in db.messages then None
    else Some(db.(messages := db.messages[newId := Message(scope.owner.customer, session, pid)]))
  }

  /** The creating transaction: the item row and its creation audit row. */
  function StepSendItem(db: Db, scope: Scope, session: Id, reply: Id, kind: Kind, c: Choice): (Db, Pc) {
    var ref := ItemRef(kind, c.newId);
    if ref in db.items || !AuditContextVisible(db, scope.owner, session, Some(reply)) then (db, Done(StorageError))
    else
      var row := Item(scope.owner.customer, session, Some(reply), scope.owner.actor, None,
                      InitialStatus(kind), None, Some(c.now + Lifetime(kind)));
      (Append(db.(items := db.items[ref := row]),
              AuditRow(CreationEvent(kind), scope.owner, session, Some(reply), None, ref)),
       Done(Completed))
  }

  // ------------------------------------------------------------------- One step

  ghost function StepDecide(db: Db, pid: nat, scope: Scope, r: Request, pc: Pc, c: Choice): (Db, Pc)
    requires r.Decide?
  {
    var ref := Target(r);
    match pc
    case Start => (db, StepStart(db, scope, r))
    case Loaded(snap) => (db, StepLoaded(db, scope, r, snap, c.now))
    case Parents(snap) => (db, StepParents(db, scope, snap))
    case ParentMessage(snap) => (db, StepParentMessage(db, scope, r.key, snap))
    case Gates(snap) => StepGates(db, scope, ref, snap, c.gate)
    case Denied(snap) => (Append(db, SideEffectRow(SideEffectDenied, scope, ref, snap, None)), Done(Refused))
    case Lookup(snap) =>
      if r.key.Some? then (db, StepLookup(db, scope, r.key.value, snap)) else (db, Done(Refused))
    case Skip(snap, id) =>
      (Append(db, SideEffectRow(SideEffectSkipped, scope, ref, snap, Some(id))), AfterGuard(snap, id))
    case Create(snap) =>
      if r.key.Some? then StepCreate(db, pid, scope, ref, r.key.value, snap, c.newId) else (db, Done(Refused))
    case Call(snap, id) =>
      if r.key.Some? then StepCall(db, scope, ref, r.key.value, snap, id, c.ok) else (db, Done(Refused))
    case Update(snap, id, ok) => StepUpdate(db, scope, snap, id, ok)
    case Record(snap, id, ok) =>
      var event := if ok then SideEffectExecuted else SideEffectFailed;
      (Append(db, SideEffectRow(event, scope, ref, snap, Some(id))), AfterGuard(snap, id))
    case Commit(snap, _) => StepCommit(db, scope, r, snap)
    case Done(_) => (db, pc)
    case _ => (db, Done(Refused))  // a counter of the other kind of request
  }

  function StepSend(db: Db, pid: nat, scope: Scope, session: Id, pc: Pc, c: Choice): (Db, Pc) {
    match pc
    case Start =>
      if OwnsSession(db, session, scope.owner) && c.gate == Pass then (db, SendUser) else (db, Done(NotFound))
    case SendUser =>
      var written := StepSendMessage(db, pid, scope, session, c.newId);
      if written.None? then (db, Done(StorageError)) else (written.value, SendReply(c.newId))
    case SendReply(user) =>
      var written := StepSendMessage(db, pid, scope, session, c.newId);
      if written.None? then (db, Done(StorageError))
      else if c.branch.None? then (written.value, Done(Completed))
      else (written.value, SendParents(user, c.newId, c.branch.value))
    case SendParents(user, reply, kind) =>
      if !OwnsSession(db, session, scope.owner)
         || !MessageInSession(db, user, scope.owner.customer, session)
         || !MessageInSession(db, reply, scope.owner.customer, session)
      then (db, Done(NotFound))
      else if kind != EscalationRequest && c.gate != Pass then (db, Done(Forbidden))
      else (db, SendItem(reply, kind))
    case SendItem(reply, kind) => StepSendItem(db, scope, session, reply, kind, c)
    case Done(_) => (db, pc)
    case _ => (db, Done(Refused))  // a counter of the other kind of request
  }

  ghost function Step(db: Db, pid: nat, p: Proc, c: Choice): (Db, Proc) {
    var (db', pc') :=
      if p.request.Decide? then StepDecide(db, pid, p.scope, p.request, p.pc, c)
      else StepSend(db, pid, p.scope, p.request.session, p.pc, c);
    (db', p.(pc := pc'))
  }

  /** An upper bound on the steps a process still takes. */
  function Remaining(pc: Pc): nat {
    match pc
    case Start => 11
    case Loaded(_) => 10
    case Parents(_) => 9
    case ParentMessage(_) => 8
    case Gates(_) => 7
    case Lookup(_) => 6
    case Create(_) => 5
    case Call(_, _) => 4
    case Update(_, _, _) => 3
    case Record(_, _, _) | Skip(_, _) => 2
    case Denied(_) | Commit(_, _) => 1
    case SendUser => 4
    case SendReply(_) => 3
    case SendParents(_, _, _) => 2
    case SendItem(_, _) => 1
    case Done(_) => 0
  }

  /** Every step of an unfinished process brings it nearer to its end, and leaves
      its caller and request as they are. */
  lemma StepShrinks(db: Db, pid: nat, p: Proc, c: Choice)
    requires !p.pc.Done?
    ensures var (db', p') := Step(db, pid, p, c);
            Remaining(p'.pc) < Remaining(p.pc) && p' == p.(pc := p'.pc)
  {
  }

  /** The rest of a request's steps with no other request in between. */
  ghost function Finish(db: Db, pid: nat, p: Proc, c: Choice): (Db, Proc)
    decreases Remaining(p.pc)
  {
    if p.pc.Done? then (db, p)
    else
      var (db', p') := Step(db, pid, p, c);
      StepShrinks(db, pid, p, c);
      Finish(db', pid, p', c)
  }

  /** One whole request served on its own. */
  ghost function Serve(db: Db, pid: nat, scope: Scope, r: Request, c: Choice): (Db, Proc) {
    Finish(db, pid, Proc(scope, r, Start), c)
  }

  lemma Unroll(db: Db, pid: nat, p: Proc, c: Choice, db': Db, pc': Pc)
    requires !p.pc.Done? && Step(db, pid, p, c) == (db', p.(pc := pc'))
    ensures Finish(db, pid, p, c) == Finish(db', pid, p.(pc := pc'), c)
  {
  }

  // ----------------------------------------------------------------------- Runs

  datatype System = System(db: Db, procs: map<nat, Proc>)

  const INITIAL := System(EMPTY_DB, map[])

  /** What can happen next. A process that is never scheduled again has crashed;
      a retry is a new process. */
  datatype Action =
    | Arrive(pid: nat, scope: Scope, request: Request)
    | Run(pid: nat, choice: Choice)
    | OpenSession(id: Id, owner: Owner)
    | ReadOnlyToolCall(id: Id, customer: Id, session: Id, message: Option<Id>, pid: nat)

  /** An action that does not apply leaves the system as it is. */
  ghost function Apply(s: System, a: Action): System {
    match a
    case Arrive(pid, scope, request) =>
      if pid in s.procs then s else s.(procs := s.procs[pid := Proc(scope, request, Start)])
    case Run(pid, choice) =>
      if pid !in s.procs then s
      else
        var (db', p') := Step(s.db, pid, s.procs[pid], choice);
        System(db', s.procs[pid := p'])
    case OpenSession(id, owner) =>
      if id in s.db.sessions then s else s.(db := s.db.(sessions := s.db.sessions[id := owner]))
    case ReadOnlyToolCall(id, customer, session, message, pid) =>
      if id in s.db.toolCalls then s
      else
        var row := ToolCall(customer, session, message, None, None, InProgress, pid);
        s.(db := s.db.(toolCalls := s.db.toolCalls[id := row]))
  }

  /** The system after a run: any sequence of actions, in any interleaving. */
  ghost function Exec(run: seq<Action>): System {
    if |run| == 0 then INITIAL else Apply(Exec(run[..|run| - 1]), run[|run| - 1])
  }
}
