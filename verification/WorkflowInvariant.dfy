/**
 The inductive invariant of the workflow, in rely-guarantee form: what the tables
 satisfy (DbInv), what each process knows at its program counter (ProcInv), and
 what every step promises the other processes (Guarantee).
 */
module WorkflowInvariant {
  import opened Prelude
  import opened WorkflowStore

  // ------------------------------------------- The audit log as a state machine

  datatype History = Absent | At(status: Status) | Broken

  function Move(h: History, kind: Kind, expected: Kind, to: Status): History {
    if kind == expected && h == At(InitialStatus(kind)) then At(to) else Broken
  }

  /** One workflow row: a creation must come first, a decision must leave the
      initial status; guard rows do not move the item. */
  function Advance(h: History, row: AuditRow): History {
    var kind := row.item.kind;
    match row.event
    case DraftCreated | ApprovalCreated | EscalationCreated =>
      if h == Absent && row.event == CreationEvent(kind) then At(InitialStatus(kind)) else Broken
    case DraftConfirmed => Move(h, kind, ActionDraft, Executed)
    case DraftCancelled => Move(h, kind, ActionDraft, Cancelled)
    case ApprovalApproved => Move(h, kind, ApprovalRequest, Approved)
    case ApprovalRejected => Move(h, kind, ApprovalRequest, Rejected)
    case ApprovalCancelled => Move(h, kind, ApprovalRequest, Cancelled)
    case EscalationResolved => Move(h, kind, EscalationRequest, Resolved)
    case EscalationCancelled => Move(h, kind, EscalationRequest, Cancelled)
    case SideEffectExecuted | SideEffectFailed | SideEffectDenied | SideEffectSkipped | PermissionDenied => h
  }

  /** What folding the audit rows of one item in order says its status is. */
  function Fold(audit: seq<AuditRow>, ref: ItemRef): History {
    if |audit| == 0 then Absent
    else
      var h := Fold(audit[..|audit| - 1], ref);
      var row := audit[|audit| - 1];
      if row.item == ref then Advance(h, row) else h
  }

  predicate Neutral(e: Event) {
    e in {SideEffectExecuted, SideEffectFailed, SideEffectDenied, SideEffectSkipped, PermissionDenied}
  }

  // ------------------------------------------------------------ Table invariants

  ghost predicate UniqueKeys(toolCalls: map<Id, ToolCall>) {
    forall i, j, customer, key :: HasKey(toolCalls, i, customer, key) && HasKey(toolCalls, j, customer, key) ==> i == j
  }

  /** A keyed ToolCall was created for an item of the same customer, session and message. */
  ghost predicate CallBelongs(t: ToolCall, items: map<ItemRef, Item>) {
    && Present(t.key)
    && t.source.Some? && t.source.value in items
    && var item := items[t.source.value];
    t.customer == item.customer && t.session == item.session && t.message == item.message
  }

  ghost predicate CallsBelong(toolCalls: map<Id, ToolCall>, items: map<ItemRef, Item>) {
    forall id :: id in toolCalls && toolCalls[id].key.Some? ==> CallBelongs(toolCalls[id], items)
  }

  /** An item sits in its requester's session and on a message of that session. */
  ghost predicate ItemPlaced(item: Item, messages: map<Id, Message>, sessions: map<Id, Owner>) {
    && item.session in sessions
    && sessions[item.session].customer == item.customer
    && sessions[item.session].actor == item.requester
    && item.message.Some? && item.message.value in messages
    && messages[item.message.value].customer == item.customer
    && messages[item.message.value].session == item.session
  }

  ghost predicate ItemsPlaced(items: map<ItemRef, Item>, messages: map<Id, Message>, sessions: map<Id, Owner>) {
    forall ref :: ref in items ==> ItemPlaced(items[ref], messages, sessions)
  }

  ghost predicate OneItemPerMessage(items: map<ItemRef, Item>) {
    forall a, b :: a in items && b in items && items[a].message == items[b].message ==> a == b
  }

  ghost predicate Backs(toolCalls: map<Id, ToolCall>, id: Id, ref: ItemRef, item: Item) {
    && Present(item.key)
    && HasKey(toolCalls, id, item.customer, item.key.value)
    && toolCalls[id].source == Some(ref)
  }

  ghost predicate IsBacked(toolCalls: map<Id, ToolCall>, ref: ItemRef, item: Item) {
    exists id :: Backs(toolCalls, id, ref, item)
  }

  ghost predicate ExecutedBacked(items: map<ItemRef, Item>, toolCalls: map<Id, ToolCall>) {
    forall ref :: ref in items && IsReplay(items[ref]) ==> IsBacked(toolCalls, ref, items[ref])
  }

  ghost predicate RowWellFormed(kind: Kind, item: Item) {
    && (item.status == InitialStatus(kind) || Fate(kind, item.status))
    && (item.key.Some? ==> IsReplay(item))
    && (item.status == InitialStatus(kind) ==> item.decider == None)
    && (item.status in {Approved, Rejected, Resolved} ==> item.decider == Some(item.requester))
  }

  /** The statuses an item of this kind can leave its initial status for. */
  predicate Fate(kind: Kind, status: Status) {
    match kind
    case ActionDraft => status in {Executed, Cancelled}
    case ApprovalRequest => status in {Approved, Rejected, Cancelled}
    case EscalationRequest => status in {Resolved, Cancelled}
  }

  ghost predicate RowsWellFormed(items: map<ItemRef, Item>) {
    forall ref :: ref in items ==> RowWellFormed(ref.kind, items[ref])
  }

  ghost predicate StatusFolds(items: map<ItemRef, Item>, audit: seq<AuditRow>) {
    forall ref :: Fold(audit, ref) == if ref in items then At(items[ref].status) else Absent
  }

  /** Every audit row carries the tuple that owns its item's session. */
  ghost predicate RowOwned(row: AuditRow, items: map<ItemRef, Item>, sessions: map<Id, Owner>) {
    && row.item in items
    && row.session == items[row.item].session
    && row.message == items[row.item].message
    && row.session in sessions
    && row.owner == sessions[row.session]
  }

  ghost predicate RowsOwned(audit: seq<AuditRow>, items: map<ItemRef, Item>, sessions: map<Id, Owner>) {
    forall k :: 0 <= k < |audit| ==> RowOwned(audit[k], items, sessions)
  }

  ghost predicate CallLogged(call: ConnectorCall, toolCalls: map<Id, ToolCall>) {
    && HasKey(toolCalls, call.toolCall, call.customer, call.key)
    && toolCalls[call.toolCall].source == Some(call.item)
  }

  ghost predicate CallsLogged(calls: seq<ConnectorCall>, toolCalls: map<Id, ToolCall>) {
    && (forall k :: 0 <= k < |calls| ==> CallLogged(calls[k], toolCalls))
    && (forall k, l :: 0 <= k < l < |calls| ==> calls[k].toolCall != calls[l].toolCall)
  }

  ghost predicate DbInv(db: Db) {
    && UniqueKeys(db.toolCalls)
    && CallsBelong(db.toolCalls, db.items)
    && ItemsPlaced(db.items, db.messages, db.sessions)
    && OneItemPerMessage(db.items)
    && ExecutedBacked(db.items, db.toolCalls)
    && RowsWellFormed(db.items)
    && StatusFolds(db.items, db.audit)
    && RowsOwned(db.audit, db.items, db.sessions)
    && CallsLogged(db.calls, db.toolCalls)
  }

  // ---------------------------------------------------------- Process invariants

  predicate SameIdentity(a: Item, b: Item) {
    && a.customer == b.customer && a.session == b.session && a.message == b.message
    && a.requester == b.requester && a.expiresAt == b.expiresAt
  }

  /** The snapshot is the row, or the row has been decided since. */
  predicate SnapshotOf(items: map<ItemRef, Item>, ref: ItemRef, snap: Item) {
    && ref in items
    && (items[ref] == snap || (snap.status == InitialStatus(ref.kind) && SameIdentity(items[ref], snap)))
    && RowShape(ref.kind, snap)
  }

  predicate RowShape(kind: Kind, snap: Item) {
    && (snap.status == InitialStatus(kind) || Fate(kind, snap.status))
    && (snap.status == InitialStatus(kind) ==> snap.decider == None && snap.key == None)
  }

  predicate KnowsItem(db: Db, scope: Scope, ref: ItemRef, snap: Item) {
    SnapshotOf(db.items, ref, snap) && snap.customer == scope.owner.customer
  }

  /** Inside the guard: either a replay with the row's own key, or a first decision. */
  predicate InGuard(db: Db, scope: Scope, r: Request, snap: Item)
    requires r.Decide?
  {
    && KnowsItem(db, scope, Target(r), snap)
    && Guarded(r.op)
    && (if IsReplay(snap) then Present(r.key) && snap.key == r.key else snap.status == InitialStatus(KindOf(r.op)))
  }

  predicate PastParents(db: Db, scope: Scope, r: Request, snap: Item)
    requires r.Decide?
  {
    InGuard(db, scope, r, snap) && OwnsSession(db, snap.session, scope.owner)
  }

  predicate PastKeyCheck(db: Db, scope: Scope, r: Request, snap: Item)
    requires r.Decide?
  {
    PastParents(db, scope, r, snap) && Present(r.key)
  }

  predicate HoldsCall(db: Db, scope: Scope, r: Request, id: Id)
    requires r.Decide?
  {
    && r.key.Some?
    && HasKey(db.toolCalls, id, scope.owner.customer, r.key.value)
    && db.toolCalls[id].source == Some(Target(r))
  }

  predicate NotCalled(calls: seq<ConnectorCall>, id: Id) {
    forall k :: 0 <= k < |calls| ==> calls[k].toolCall != id
  }

  /** The reply message of a send is this process's own and carries no item yet. */
  ghost predicate OwnsReply(db: Db, pid: nat, scope: Scope, session: Id, reply: Id) {
    && MessageInSession(db, reply, scope.owner.customer, session)
    && db.messages[reply].author == pid
    && forall ref :: ref in db.items ==> db.items[ref].message != Some(reply)
  }

  ghost predicate DecideInv(db: Db, pid: nat, scope: Scope, r: Request, pc: Pc)
    requires r.Decide?
  {
    match pc
    case Start => true
    case Done(_) => true
    case Loaded(snap) => KnowsItem(db, scope, Target(r), snap)
    case Parents(snap) => InGuard(db, scope, r, snap)
    case ParentMessage(snap) => PastParents(db, scope, r, snap)
    case Denied(snap) => PastParents(db, scope, r, snap)
    case Gates(snap) => PastKeyCheck(db, scope, r, snap)
    case Lookup(snap) => PastKeyCheck(db, scope, r, snap)
    case Skip(snap, id) => PastKeyCheck(db, scope, r, snap) && HoldsCall(db, scope, r, id)
    case Create(snap) => PastKeyCheck(db, scope, r, snap) && !IsReplay(snap)
    case Call(snap, id) =>
      && PastKeyCheck(db, scope, r, snap) && !IsReplay(snap) && HoldsCall(db, scope, r, id)
      && db.toolCalls[id].creator == pid && NotCalled(db.calls, id)
    case Update(snap, id, _) =>
      PastKeyCheck(db, scope, r, snap) && !IsReplay(snap) && HoldsCall(db, scope, r, id)
    case Record(snap, id, _) =>
      PastKeyCheck(db, scope, r, snap) && !IsReplay(snap) && HoldsCall(db, scope, r, id)
    case Commit(snap, backing) =>
      && KnowsItem(db, scope, Target(r), snap)
      && snap.status == InitialStatus(KindOf(r.op))
      && (Guarded(r.op) ==> Present(r.key) && backing.Some? && HoldsCall(db, scope, r, backing.value))
    case _ => false
  }

  ghost predicate SendInv(db: Db, pid: nat, scope: Scope, session: Id, pc: Pc) {
    match pc
    case Start => true
    case Done(_) => true
    case SendUser => true
    case SendReply(_) => true
    case SendParents(_, reply, _) => OwnsReply(db, pid, scope, session, reply)
    case SendItem(reply, _) => OwnsReply(db, pid, scope, session, reply)
    case _ => false
  }

  ghost predicate ProcInv(db: Db, pid: nat, p: Proc) {
    if p.request.Decide? then DecideInv(db, pid, p.scope, p.request, p.pc)
    else SendInv(db, pid, p.scope, p.request.session, p.pc)
  }

  // ----------------------------------------------------------------- Guarantee

  ghost predicate ToolCallsGrow(before: map<Id, ToolCall>, after: map<Id, ToolCall>) {
    forall id :: id in before ==> id in after && after[id] == before[id].(execution := after[id].execution)
  }

  /** A row stays as it is, or leaves its initial status. */
  predicate ItemMoves(kind: Kind, before: Item, after: Item) {
    after == before || (before.status == InitialStatus(kind) && SameIdentity(before, after))
  }

  ghost predicate ItemsGrow(before: map<ItemRef, Item>, after: map<ItemRef, Item>) {
    forall ref :: ref in before ==> ref in after && ItemMoves(ref.kind, before[ref], after[ref])
  }

  /** Items appear only on messages of the process that creates them. */
  ghost predicate NewItemsAreOwn(pid: nat, before: Db, after: Db) {
    forall ref :: ref in after.items && ref !in before.items ==>
      && after.items[ref].message.Some?
      && after.items[ref].message.value in before.messages
      && before.messages[after.items[ref].message.value].author == pid
  }

  /** Connector calls are made only for ToolCalls the calling process created. */
  ghost predicate NewCallsAreOwn(pid: nat, before: Db, after: Db) {
    && |before.calls| <= |after.calls|
    && after.calls[..|before.calls|] == before.calls
    && forall k :: |before.calls| <= k < |after.calls| ==>
      && after.calls[k].toolCall in before.toolCalls
      && before.toolCalls[after.calls[k].toolCall].creator == pid
  }

  ghost predicate Guarantee(pid: nat, before: Db, after: Db) {
    && (forall id :: id in before.sessions ==> id in after.sessions && after.sessions[id] == before.sessions[id])
    && (forall id :: id in before.messages ==> id in after.messages && after.messages[id] == before.messages[id])
    && ToolCallsGrow(before.toolCalls, after.toolCalls)
    && ItemsGrow(before.items, after.items)
    && NewItemsAreOwn(pid, before, after)
    && NewCallsAreOwn(pid, before, after)
  }

  lemma ItemKnowledgeStable(db: Db, db': Db, other: nat, scope: Scope, r: Request, snap: Item)
    requires r.Decide? && Guarantee(other, db, db') && KnowsItem(db, scope, Target(r), snap)
    ensures KnowsItem(db', scope, Target(r), snap)
  {
    var ref := Target(r);
    assert ItemMoves(ref.kind, db.items[ref], db'.items[ref]);
  }

  lemma CallKnowledgeStable(db: Db, db': Db, other: nat, scope: Scope, r: Request, id: Id)
    requires r.Decide? && Guarantee(other, db, db') && HoldsCall(db, scope, r, id)
    ensures HoldsCall(db', scope, r, id) && db'.toolCalls[id].creator == db.toolCalls[id].creator
  {
    assert id in db'.toolCalls && db'.toolCalls[id] == db.toolCalls[id].(execution := db'.toolCalls[id].execution);
  }

  lemma DecideStable(db: Db, db': Db, pid: nat, other: nat, scope: Scope, r: Request, pc: Pc)
    requires r.Decide? && DecideInv(db, pid, scope, r, pc)
    requires other != pid && Guarantee(other, db, db')
    ensures DecideInv(db', pid, scope, r, pc)
  {
    if !pc.Start? && !pc.Done? {
      ItemKnowledgeStable(db, db', other, scope, r, pc.snap);
      if pc.Skip? || pc.Call? || pc.Update? || pc.Record? {
        CallKnowledgeStable(db, db', other, scope, r, pc.toolCall);
      }
      if pc.Commit? && pc.backing.Some? && Guarded(r.op) {
        CallKnowledgeStable(db, db', other, scope, r, pc.backing.value);
      }
      if pc.Call? {
        NotCalledStable(db, db', pid, other, pc.toolCall);
      }
    }
  }

  /** What a process knows survives the steps of every other process. */
  lemma ProcStable(db: Db, db': Db, pid: nat, other: nat, p: Proc)
    requires ProcInv(db, pid, p)
    requires other != pid && Guarantee(other, db, db')
    ensures ProcInv(db', pid, p)
  {
    if p.request.Decide? {
      DecideStable(db, db', pid, other, p.scope, p.request, p.pc);
    } else {
      match p.pc
      case SendParents(_, reply, _) => ReplyStable(db, db', pid, other, p.scope, p.request.session, reply);
      case SendItem(reply, _) => ReplyStable(db, db', pid, other, p.scope, p.request.session, reply);
      case _ =>
    }
  }

  lemma ReplyStable(db: Db, db': Db, pid: nat, other: nat, scope: Scope, session: Id, reply: Id)
    requires OwnsReply(db, pid, scope, session, reply)
    requires other != pid && Guarantee(other, db, db')
    ensures OwnsReply(db', pid, scope, session, reply)
  {
    forall ref | ref in db'.items
      ensures db'.items[ref].message != Some(reply)
    {
      if ref in db.items {
        assert db.items[ref].message == db'.items[ref].message;
      }
    }
  }

  lemma NotCalledStable(db: Db, db': Db, pid: nat, other: nat, id: Id)
    requires NotCalled(db.calls, id) && id in db.toolCalls && db.toolCalls[id].creator == pid
    requires other != pid && Guarantee(other, db, db')
    ensures NotCalled(db'.calls, id)
  {
    forall k | 0 <= k < |db'.calls|
      ensures db'.calls[k].toolCall != id
    {
      if k < |db.calls| {
        assert db'.calls[..|db.calls|][k] == db.calls[k];
      }
    }
  }

  // ----------------------------------------------------------- Steps keep DbInv

  lemma FoldAppend(audit: seq<AuditRow>, row: AuditRow, ref: ItemRef)
    ensures Fold(audit + [row], ref) ==
            if row.item == ref then Advance(Fold(audit, ref), row) else Fold(audit, ref)
  {
    assert (audit + [row])[..|audit|] == audit;
  }

  lemma NeutralFold(items: map<ItemRef, Item>, audit: seq<AuditRow>, row: AuditRow)
    requires StatusFolds(items, audit) && Neutral(row.event)
    ensures StatusFolds(items, audit + [row])
  {
    forall ref
      ensures Fold(audit + [row], ref) == Fold(audit, ref)
    {
      FoldAppend(audit, row, ref);
    }
  }

  lemma OwnedAppend(items: map<ItemRef, Item>, sessions: map<Id, Owner>, audit: seq<AuditRow>, row: AuditRow)
    requires RowsOwned(audit, items, sessions) && RowOwned(row, items, sessions)
    ensures RowsOwned(audit + [row], items, sessions)
  {
  }

  /** Appending a guard row of an item's own session keeps every table invariant. */
  lemma AppendSafe(db: Db, pid: nat, row: AuditRow)
    requires DbInv(db) && Neutral(row.event) && RowOwned(row, db.items, db.sessions)
    ensures DbInv(Append(db, row)) && Guarantee(pid, db, Append(db, row))
  {
    NeutralFold(db.items, db.audit, row);
    OwnedAppend(db.items, db.sessions, db.audit, row);
  }

  /** A ToolCall with an unused key for an item of its place keeps the table sound. */
  lemma NewCallSafe(toolCalls: map<Id, ToolCall>, items: map<ItemRef, Item>, calls: seq<ConnectorCall>, id: Id, row: ToolCall)
    requires UniqueKeys(toolCalls) && CallsBelong(toolCalls, items) && CallsLogged(calls, toolCalls)
    requires id !in toolCalls
    requires row.key.Some? ==> CallBelongs(row, items) && !KeyTaken(toolCalls, row.customer, row.key.value)
    ensures var after := toolCalls[id := row];
            && UniqueKeys(after) && CallsBelong(after, items) && CallsLogged(calls, after)
            && ToolCallsGrow(toolCalls, after) && NotCalled(calls, id)
  {
    var after := toolCalls[id := row];
    assert forall i, customer, k :: HasKey(after, i, customer, k) && i != id ==> HasKey(toolCalls, i, customer, k);
    assert forall k :: 0 <= k < |calls| ==> CallLogged(calls[k], toolCalls) && CallLogged(calls[k], after);
  }

  lemma CreateSafe(db: Db, pid: nat, scope: Scope, r: Request, snap: Item, newId: Id)
    requires DbInv(db) && r.Decide? && DecideInv(db, pid, scope, r, Create(snap))
    ensures var (db', pc') := StepCreate(db, pid, scope, Target(r), r.key.value, snap, newId);
            DbInv(db') && DecideInv(db', pid, scope, r, pc') && Guarantee(pid, db, db')
  {
    var (db', pc') := StepCreate(db, pid, scope, Target(r), r.key.value, snap, newId);
    if pc'.Call? {
      NewCallSafe(db.toolCalls, db.items, db.calls, newId, db'.toolCalls[newId]);
      BackedStable(db.items, db.toolCalls, db'.toolCalls);
    } else {
      NothingWritten(db, pid);
    }
  }

  /** Backing survives any growth of the ToolCall table. */
  lemma BackedStable(items: map<ItemRef, Item>, before: map<Id, ToolCall>, after: map<Id, ToolCall>)
    requires ExecutedBacked(items, before) && ToolCallsGrow(before, after)
    ensures ExecutedBacked(items, after)
  {
    forall ref | ref in items && IsReplay(items[ref])
      ensures IsBacked(after, ref, items[ref])
    {
      var id :| Backs(before, id, ref, items[ref]);
      assert Backs(after, id, ref, items[ref]);
    }
  }

  lemma CallSafe(db: Db, pid: nat, scope: Scope, r: Request, snap: Item, id: Id, ok: bool)
    requires DbInv(db) && r.Decide? && DecideInv(db, pid, scope, r, Call(snap, id))
    ensures var (db', pc') := StepCall(db, scope, Target(r), r.key.value, snap, id, ok);
            DbInv(db') && DecideInv(db', pid, scope, r, pc') && Guarantee(pid, db, db')
  {
  }

  lemma UpdateSafe(db: Db, pid: nat, scope: Scope, r: Request, snap: Item, id: Id, ok: bool)
    requires DbInv(db) && r.Decide? && DecideInv(db, pid, scope, r, Update(snap, id, ok))
    ensures var (db', pc') := StepUpdate(db, scope, snap, id, ok);
            DbInv(db') && DecideInv(db', pid, scope, r, pc') && Guarantee(pid, db, db')
  {
    var (db', pc') := StepUpdate(db, scope, snap, id, ok);
    assert ToolCallsGrow(db.toolCalls, db'.toolCalls);
    assert forall i, customer, k :: HasKey(db'.toolCalls, i, customer, k) ==> HasKey(db.toolCalls, i, customer, k);
    BackedStable(db.items, db.toolCalls, db'.toolCalls);
  }

  lemma FoldsAfter(db: Db, ref: ItemRef, item: Item, row: AuditRow)
    requires StatusFolds(db.items, db.audit) && row.item == ref
    requires Advance(Fold(db.audit, ref), row) == At(item.status)
    ensures StatusFolds(db.items[ref := item], db.audit + [row])
  {
    forall other
      ensures Fold(db.audit + [row], other) ==
              if other in db.items[ref := item] then At(db.items[ref := item][other].status) else Absent
    {
      FoldAppend(db.audit, row, other);
    }
  }

  lemma BackedAfter(db: Db, ref: ItemRef, item: Item)
    requires ExecutedBacked(db.items, db.toolCalls)
    requires IsReplay(item) ==> IsBacked(db.toolCalls, ref, item)
    ensures ExecutedBacked(db.items[ref := item], db.toolCalls)
  {
    var items' := db.items[ref := item];
    forall other | other in items' && IsReplay(items'[other])
      ensures IsBacked(db.toolCalls, other, items'[other])
    {
      if other != ref {
        assert IsBacked(db.toolCalls, other, db.items[other]);
      }
    }
  }

  lemma RowsOwnedAfter(db: Db, ref: ItemRef, item: Item, row: AuditRow)
    requires RowsOwned(db.audit, db.items, db.sessions)
    requires ref in db.items ==> SameIdentity(db.items[ref], item)
    requires RowOwned(row, db.items[ref := item], db.sessions)
    ensures RowsOwned(db.audit + [row], db.items[ref := item], db.sessions)
  {
    forall k | 0 <= k < |db.audit + [row]|
      ensures RowOwned((db.audit + [row])[k], db.items[ref := item], db.sessions)
    {
      if k < |db.audit| {
        assert RowOwned(db.audit[k], db.items, db.sessions);
      }
    }
  }

  lemma PlacesAfter(db: Db, ref: ItemRef, item: Item)
    requires ItemsPlaced(db.items, db.messages, db.sessions) && OneItemPerMessage(db.items)
    requires CallsBelong(db.toolCalls, db.items)
    requires ref in db.items && SameIdentity(db.items[ref], item)
    ensures var items' := db.items[ref := item];
            && ItemsPlaced(items', db.messages, db.sessions) && OneItemPerMessage(items')
            && CallsBelong(db.toolCalls, items')
  {
    var items' := db.items[ref := item];
    forall a, b | a in items' && b in items' && items'[a].message == items'[b].message
      ensures a == b
    {
      assert db.items[a].message == db.items[b].message;
    }
    forall id | id in db.toolCalls && db.toolCalls[id].key.Some?
      ensures CallBelongs(db.toolCalls[id], items')
    {
      assert CallBelongs(db.toolCalls[id], db.items);
    }
    forall other | other in items'
      ensures ItemPlaced(items'[other], db.messages, db.sessions)
    {
      assert ItemPlaced(db.items[other], db.messages, db.sessions);
    }
  }

  lemma DecisionGuarantee(db: Db, pid: nat, ref: ItemRef, item: Item, row: AuditRow)
    requires ref in db.items && ItemMoves(ref.kind, db.items[ref], item)
    ensures Guarantee(pid, db, Append(db.(items := db.items[ref := item]), row))
  {
  }

  /** Deciding an undecided item, with the matching audit row, keeps the tables sound. */
  lemma DecisionSafe(db: Db, pid: nat, ref: ItemRef, item: Item, row: AuditRow)
    requires DbInv(db) && ref in db.items
    requires db.items[ref].status == InitialStatus(ref.kind) && SameIdentity(db.items[ref], item)
    requires RowWellFormed(ref.kind, item)
    requires row.item == ref && Advance(At(InitialStatus(ref.kind)), row) == At(item.status)
    requires RowOwned(row, db.items[ref := item], db.sessions)
    requires IsReplay(item) ==> IsBacked(db.toolCalls, ref, item)
    ensures var db' := Append(db.(items := db.items[ref := item]), row);
            DbInv(db') && Guarantee(pid, db, db')
  {
    FoldsAfter(db, ref, item, row);
    BackedAfter(db, ref, item);
    RowsOwnedAfter(db, ref, item, row);
    PlacesAfter(db, ref, item);
    DecisionGuarantee(db, pid, ref, item, row);
  }

  /** The row a decision writes is well-formed and its event tells the new status. */
  lemma DecidedRow(op: Operation, owner: Owner, key: Option<string>, snap: Item, row: Item, ref: ItemRef)
    requires ref.kind == KindOf(op) && row.status == snap.status == InitialStatus(ref.kind)
    requires SameIdentity(row, snap) && RowWellFormed(ref.kind, row) && RowShape(ref.kind, snap)
    requires owner.actor == row.requester
    ensures var item := Decided(op, owner.actor, key, snap, row);
            && SameIdentity(row, item) && RowWellFormed(ref.kind, item)
            && Fate(ref.kind, item.status) && item.status == NewStatus(op)
            && (IsReplay(item) <==> Guarded(op))
            && (IsReplay(item) && key.Some? ==> item.key == key)
            && forall session, message ::
                 Advance(At(InitialStatus(ref.kind)), AuditRow(DecisionEvent(op), owner, session, message, None, ref))
                 == At(item.status)
  {
  }

  /** What a commit that goes through writes: the first decision of the item, by the
      owner of its session, and backed. */
  lemma CommittedFacts(db: Db, pid: nat, scope: Scope, r: Request, snap: Item, backing: Option<Id>)
    requires DbInv(db) && r.Decide? && DecideInv(db, pid, scope, r, Commit(snap, backing))
    requires StepCommit(db, scope, r, snap).1 == Done(Completed)
    ensures var ref := Target(r);
            var item := Decided(r.op, scope.owner.actor, r.key, snap, db.items[ref]);
            && db.items[ref].status == InitialStatus(ref.kind) && SameIdentity(db.items[ref], item)
            && RowWellFormed(ref.kind, item)
            && Advance(At(InitialStatus(ref.kind)),
                       AuditRow(DecisionEvent(r.op), scope.owner, item.session, item.message, None, ref)) == At(item.status)
            && (IsReplay(item) ==> IsBacked(db.toolCalls, ref, item))
  {
    var ref := Target(r);
    var row := db.items[ref];
    assert ItemPlaced(row, db.messages, db.sessions);
    assert RowWellFormed(ref.kind, row);
    assert scope.owner.actor == row.requester;
    DecidedRow(r.op, scope.owner, r.key, snap, row, ref);
    if Guarded(r.op) {
      assert Backs(db.toolCalls, backing.value, ref, Decided(r.op, scope.owner.actor, r.key, snap, row));
    }
  }

  /** A committed decision is the first one, by the session's owner, and its row is backed. */
  lemma CommitSafe(db: Db, pid: nat, scope: Scope, r: Request, snap: Item, backing: Option<Id>)
    requires DbInv(db) && r.Decide? && DecideInv(db, pid, scope, r, Commit(snap, backing))
    ensures var (db', pc') := StepCommit(db, scope, r, snap);
            DbInv(db') && pc'.Done? && Guarantee(pid, db, db')
  {
    var (db', pc') := StepCommit(db, scope, r, snap);
    if pc' == Done(Completed) {
      CommittedFacts(db, pid, scope, r, snap, backing);
      var ref := Target(r);
      var item := Decided(r.op, scope.owner.actor, r.key, snap, db.items[ref]);
      DecisionSafe(db, pid, ref, item,
                   AuditRow(DecisionEvent(r.op), scope.owner, item.session, item.message, None, ref));
    } else {
      NothingWritten(db, pid);
    }
  }

  lemma SendMessageSafe(db: Db, pid: nat, scope: Scope, session: Id, newId: Id)
    requires DbInv(db)
    ensures var written := StepSendMessage(db, pid, scope, session, newId);
            written.Some? ==>
              && DbInv(written.value) && Guarantee(pid, db, written.value)
              && OwnsReply(written.value, pid, scope, session, newId)
  {
    if newId !in db.messages {
      forall ref | ref in db.items
        ensures db.items[ref].message != Some(newId)
      {
        assert ItemPlaced(db.items[ref], db.messages, db.sessions);
      }
    }
  }

  lemma SendItemSafe(db: Db, pid: nat, scope: Scope, session: Id, reply: Id, kind: Kind, c: Choice)
    requires DbInv(db) && OwnsReply(db, pid, scope, session, reply)
    ensures var (db', pc') := StepSendItem(db, scope, session, reply, kind, c);
            DbInv(db') && pc'.Done? && Guarantee(pid, db, db')
  {
    SendItemKeeps(db, pid, scope, session, reply, kind, c);
    SendItemGuarantees(db, pid, scope, session, reply, kind, c);
  }

  lemma SendItemKeeps(db: Db, pid: nat, scope: Scope, session: Id, reply: Id, kind: Kind, c: Choice)
    requires DbInv(db) && OwnsReply(db, pid, scope, session, reply)
    ensures DbInv(StepSendItem(db, scope, session, reply, kind, c).0)
  {
    var (db', pc') := StepSendItem(db, scope, session, reply, kind, c);
    if pc' == Done(Completed) {
      var ref := ItemRef(kind, c.newId);
      var item := db'.items[ref];
      var row := AuditRow(CreationEvent(kind), scope.owner, session, Some(reply), None, ref);
      FoldsAfter(db, ref, item, row);
      BackedAfter(db, ref, item);
      RowsOwnedAfter(db, ref, item, row);
    }
  }

  lemma SendItemGuarantees(db: Db, pid: nat, scope: Scope, session: Id, reply: Id, kind: Kind, c: Choice)
    requires OwnsReply(db, pid, scope, session, reply)
    ensures var (db', pc') := StepSendItem(db, scope, session, reply, kind, c);
            pc'.Done? && Guarantee(pid, db, db')
  {
  }

  /** The lookup only ever skips to a call created for this very item. */
  lemma LookupSafe(db: Db, pid: nat, scope: Scope, r: Request, snap: Item)
    requires DbInv(db) && r.Decide? && DecideInv(db, pid, scope, r, Lookup(snap))
    ensures DecideInv(db, pid, scope, r, StepLookup(db, scope, r.key.value, snap))
  {
    var ref, key, customer := Target(r), r.key.value, scope.owner.customer;
    if KeyTaken(db.toolCalls, customer, key) {
      var id := FindByKey(db.toolCalls, customer, key);
      assert CallBelongs(db.toolCalls[id], db.items);
    }
    if IsReplay(snap) {
      assert IsBacked(db.toolCalls, ref, db.items[ref]);
      var id :| Backs(db.toolCalls, id, ref, db.items[ref]);
      assert HasKey(db.toolCalls, id, customer, key);
    }
  }

  lemma StartSafe(db: Db, pid: nat, scope: Scope, r: Request)
    requires DbInv(db) && r.Decide?
    ensures DecideInv(db, pid, scope, r, StepStart(db, scope, r))
  {
    if Target(r) in db.items {
      assert RowWellFormed(Target(r).kind, db.items[Target(r)]);
    }
  }

  /** The checks after the load end the request, enter the guard, or go to commit. */
  lemma BranchShape(scope: Scope, op: Operation, key: Option<string>, snap: Item, now: int)
    requires RowShape(KindOf(op), snap)
    ensures var pc := Branch(scope, op, key, snap, now);
            || pc.Done?
            || (&& pc == Parents(snap) && Guarded(op)
                && (if IsReplay(snap) then Present(key) && snap.key == key else snap.status == InitialStatus(KindOf(op))))
            || (pc == Commit(snap, None) && !Guarded(op) && snap.status == InitialStatus(KindOf(op)))
  {
  }

  lemma LoadedSafe(db: Db, pid: nat, scope: Scope, r: Request, snap: Item, now: int)
    requires r.Decide? && KnowsItem(db, scope, Target(r), snap)
    ensures DecideInv(db, pid, scope, r, StepLoaded(db, scope, r, snap, now))
  {
    BranchShape(scope, r.op, r.key, snap, now);
  }

  /** A guard row is written only by the owner of the item's session. */
  lemma GuardRowSafe(db: Db, pid: nat, scope: Scope, r: Request, snap: Item, event: Event, toolCall: Option<Id>)
    requires DbInv(db) && r.Decide? && PastParents(db, scope, r, snap) && Neutral(event)
    ensures var db' := Append(db, SideEffectRow(event, scope, Target(r), snap, toolCall));
            DbInv(db') && Guarantee(pid, db, db')
  {
    AppendSafe(db, pid, SideEffectRow(event, scope, Target(r), snap, toolCall));
  }

  lemma NothingWritten(db: Db, pid: nat)
    ensures Guarantee(pid, db, db)
  {
  }

  lemma GatesSafe(db: Db, pid: nat, scope: Scope, r: Request, snap: Item, gate: Gate)
    requires DbInv(db) && r.Decide? && PastKeyCheck(db, scope, r, snap)
    ensures var (db', pc') := StepGates(db, scope, Target(r), snap, gate);
            DbInv(db') && DecideInv(db', pid, scope, r, pc') && Guarantee(pid, db, db')
  {
    NothingWritten(db, pid);
    if gate == RefusePermission {
      GuardRowSafe(db, pid, scope, r, snap, PermissionDenied, None);
    }
  }

  lemma GuardStepSafe(db: Db, pid: nat, scope: Scope, r: Request, pc: Pc, c: Choice)
    requires DbInv(db) && r.Decide? && DecideInv(db, pid, scope, r, pc)
    requires pc.Denied? || pc.Skip? || pc.Record?
    ensures var (db', pc') := StepDecide(db, pid, scope, r, pc, c);
            DbInv(db') && DecideInv(db', pid, scope, r, pc') && Guarantee(pid, db, db')
  {
    match pc
    case Denied(snap) => GuardRowSafe(db, pid, scope, r, snap, SideEffectDenied, None);
    case Skip(snap, id) => GuardRowSafe(db, pid, scope, r, snap, SideEffectSkipped, Some(id));
    case Record(snap, id, ok) =>
      GuardRowSafe(db, pid, scope, r, snap, if ok then SideEffectExecuted else SideEffectFailed, Some(id));
  }

  lemma CallStepSafe(db: Db, pid: nat, scope: Scope, r: Request, pc: Pc, c: Choice)
    requires DbInv(db) && r.Decide? && DecideInv(db, pid, scope, r, pc)
    requires pc.Create? || pc.Call? || pc.Update?
    ensures var (db', pc') := StepDecide(db, pid, scope, r, pc, c);
            DbInv(db') && DecideInv(db', pid, scope, r, pc') && Guarantee(pid, db, db')
  {
    match pc
    case Create(snap) => CreateSafe(db, pid, scope, r, snap, c.newId);
    case Call(snap, id) => CallSafe(db, pid, scope, r, snap, id, c.ok);
    case Update(snap, id, ok) => UpdateSafe(db, pid, scope, r, snap, id, ok);
  }

  ghost predicate StepKeeps(db: Db, pid: nat, scope: Scope, r: Request, pc: Pc, c: Choice)
    requires r.Decide?
  {
    var (db', pc') := StepDecide(db, pid, scope, r, pc, c);
    DbInv(db') && DecideInv(db', pid, scope, r, pc') && Guarantee(pid, db, db')
  }

  /** A step that writes nothing keeps everything if the process knows what it must
      at its next program counter. */
  lemma ReadKeeps(db: Db, pid: nat, scope: Scope, r: Request, pc: Pc, c: Choice)
    requires DbInv(db) && r.Decide?
    requires StepDecide(db, pid, scope, r, pc, c).0 == db
    requires DecideInv(db, pid, scope, r, StepDecide(db, pid, scope, r, pc, c).1)
    ensures StepKeeps(db, pid, scope, r, pc, c)
  {
    NothingWritten(db, pid);
  }

  lemma StartStepSafe(db: Db, pid: nat, scope: Scope, r: Request, c: Choice)
    requires DbInv(db) && r.Decide?
    ensures StepKeeps(db, pid, scope, r, Start, c)
  {
    StartSafe(db, pid, scope, r);
    ReadKeeps(db, pid, scope, r, Start, c);
  }

  lemma LoadedStepSafe(db: Db, pid: nat, scope: Scope, r: Request, snap: Item, c: Choice)
    requires DbInv(db) && r.Decide? && DecideInv(db, pid, scope, r, Loaded(snap))
    ensures StepKeeps(db, pid, scope, r, Loaded(snap), c)
  {
    LoadedSafe(db, pid, scope, r, snap, c.now);
    ReadKeeps(db, pid, scope, r, Loaded(snap), c);
  }

  lemma ParentsStepSafe(db: Db, pid: nat, scope: Scope, r: Request, snap: Item, c: Choice)
    requires DbInv(db) && r.Decide? && DecideInv(db, pid, scope, r, Parents(snap))
    ensures StepKeeps(db, pid, scope, r, Parents(snap), c)
  {
    ReadKeeps(db, pid, scope, r, Parents(snap), c);
  }

  lemma ParentMessageStepSafe(db: Db, pid: nat, scope: Scope, r: Request, snap: Item, c: Choice)
    requires DbInv(db) && r.Decide? && DecideInv(db, pid, scope, r, ParentMessage(snap))
    ensures StepKeeps(db, pid, scope, r, ParentMessage(snap), c)
  {
    ReadKeeps(db, pid, scope, r, ParentMessage(snap), c);
  }

  lemma LookupStepSafe(db: Db, pid: nat, scope: Scope, r: Request, snap: Item, c: Choice)
    requires DbInv(db) && r.Decide? && DecideInv(db, pid, scope, r, Lookup(snap))
    ensures StepKeeps(db, pid, scope, r, Lookup(snap), c)
  {
    LookupSafe(db, pid, scope, r, snap);
    ReadKeeps(db, pid, scope, r, Lookup(snap), c);
  }

  /** The steps that only read, each by its program counter. */
  lemma ReadStepSafe(db: Db, pid: nat, scope: Scope, r: Request, pc: Pc, c: Choice)
    requires DbInv(db) && r.Decide? && DecideInv(db, pid, scope, r, pc)
    requires pc.Start? || pc.Loaded? || pc.Parents? || pc.ParentMessage? || pc.Lookup?
    ensures StepKeeps(db, pid, scope, r, pc, c)
  {
    if pc.Start? {
      StartStepSafe(db, pid, scope, r, c);
    } else if pc.Loaded? {
      LoadedStepSafe(db, pid, scope, r, pc.snap, c);
    } else if pc.Parents? {
      ParentsStepSafe(db, pid, scope, r, pc.snap, c);
    } else if pc.ParentMessage? {
      ParentMessageStepSafe(db, pid, scope, r, pc.snap, c);
    } else {
      LookupStepSafe(db, pid, scope, r, pc.snap, c);
    }
  }

  /** Every step of a deciding request, by the kind of its program counter. */
  lemma DecideSafe(db: Db, pid: nat, scope: Scope, r: Request, pc: Pc, c: Choice)
    requires DbInv(db) && r.Decide? && DecideInv(db, pid, scope, r, pc)
    ensures StepKeeps(db, pid, scope, r, pc, c)
  {
    if pc.Commit? {
      CommitStepSafe(db, pid, scope, r, pc.snap, pc.backing, c);
    } else if pc.Create? || pc.Call? || pc.Update? {
      CallStepSafe(db, pid, scope, r, pc, c);
    } else if pc.Gates? {
      GatesStepSafe(db, pid, scope, r, pc.snap, c);
    } else if pc.Denied? || pc.Skip? || pc.Record? {
      GuardStepSafe(db, pid, scope, r, pc, c);
    } else if pc.Done? {
      ReadKeeps(db, pid, scope, r, pc, c);
    } else {
      ReadStepSafe(db, pid, scope, r, pc, c);
    }
  }

  lemma GatesStepSafe(db: Db, pid: nat, scope: Scope, r: Request, snap: Item, c: Choice)
    requires DbInv(db) && r.Decide? && DecideInv(db, pid, scope, r, Gates(snap))
    ensures StepKeeps(db, pid, scope, r, Gates(snap), c)
  {
    GatesSafe(db, pid, scope, r, snap, c.gate);
  }

  lemma CommitStepSafe(db: Db, pid: nat, scope: Scope, r: Request, snap: Item, backing: Option<Id>, c: Choice)
    requires DbInv(db) && r.Decide? && DecideInv(db, pid, scope, r, Commit(snap, backing))
    ensures StepKeeps(db, pid, scope, r, Commit(snap, backing), c)
  {
    CommitSafe(db, pid, scope, r, snap, backing);
  }

  lemma SendSafe(db: Db, pid: nat, scope: Scope, session: Id, pc: Pc, c: Choice)
    requires DbInv(db) && SendInv(db, pid, scope, session, pc)
    ensures var (db', pc') := StepSend(db, pid, scope, session, pc, c);
            DbInv(db') && SendInv(db', pid, scope, session, pc') && Guarantee(pid, db, db')
  {
    NothingWritten(db, pid);
    match pc
    case SendUser => SendMessageSafe(db, pid, scope, session, c.newId);
    case SendReply(_) => SendMessageSafe(db, pid, scope, session, c.newId);
    case SendItem(reply, kind) => SendItemSafe(db, pid, scope, session, reply, kind, c);
    case _ =>
  }

  /** One step of any process keeps the invariant and the promise to the others. */
  lemma StepSafe(db: Db, pid: nat, p: Proc, c: Choice)
    requires DbInv(db) && ProcInv(db, pid, p)
    ensures var (db', p') := Step(db, pid, p, c);
            DbInv(db') && ProcInv(db', pid, p') && Guarantee(pid, db, db')
  {
    if p.request.Decide? {
      DecideSafe(db, pid, p.scope, p.request, p.pc, c);
    } else {
      SendSafe(db, pid, p.scope, p.request.session, p.pc, c);
    }
  }

  // ------------------------------------------------------------------ Whole runs

  ghost predicate SystemInv(s: System) {
    && DbInv(s.db)
    && forall pid :: pid in s.procs ==> ProcInv(s.db, pid, s.procs[pid])
  }

  lemma OthersStable(s: System, db': Db, actor: nat, pid: nat)
    requires SystemInv(s) && Guarantee(actor, s.db, db') && pid in s.procs && pid != actor
    ensures ProcInv(db', pid, s.procs[pid])
  {
    ProcStable(s.db, db', pid, actor, s.procs[pid]);
  }

  lemma RunSafe(s: System, pid: nat, c: Choice)
    requires SystemInv(s) && pid in s.procs
    ensures SystemInv(Apply(s, Run(pid, c)))
  {
    var (db', p') := Step(s.db, pid, s.procs[pid], c);
    StepSafe(s.db, pid, s.procs[pid], c);
    forall other | other in s.procs && other != pid
      ensures ProcInv(db', other, s.procs[other])
    {
      OthersStable(s, db', pid, other);
    }
  }

  lemma OpenSessionSafe(db: Db, pid: nat, id: Id, owner: Owner)
    requires DbInv(db) && id !in db.sessions
    ensures var db' := db.(sessions := db.sessions[id := owner]);
            DbInv(db') && Guarantee(pid, db, db')
  {
    var db' := db.(sessions := db.sessions[id := owner]);
    assert RowsOwned(db'.audit, db'.items, db'.sessions) by {
      assert forall k :: 0 <= k < |db.audit| ==> RowOwned(db.audit[k], db.items, db.sessions);
    }
  }

  lemma KeylessCallSafe(db: Db, pid: nat, id: Id, row: ToolCall)
    requires DbInv(db) && id !in db.toolCalls && row.key == None
    ensures var db' := db.(toolCalls := db.toolCalls[id := row]);
            DbInv(db') && Guarantee(pid, db, db')
  {
    NewCallSafe(db.toolCalls, db.items, db.calls, id, row);
    BackedStable(db.items, db.toolCalls, db.toolCalls[id := row]);
  }

  /** Sessions opening and keyless read-only tool calls disturb nobody. */
  lemma EnvironmentSafe(s: System, a: Action)
    requires SystemInv(s) && (a.OpenSession? || a.ReadOnlyToolCall?)
    ensures SystemInv(Apply(s, a))
  {
    var db' := Apply(s, a).db;
    if db' != s.db {
      forall pid | pid in s.procs
        ensures ProcInv(db', pid, s.procs[pid]) && DbInv(db')
      {
        EnvironmentStep(s.db, pid + 1, a);
        OthersStable(s, db', pid + 1, pid);
      }
      EnvironmentStep(s.db, 0, a);
    }
  }

  lemma EnvironmentStep(db: Db, pid: nat, a: Action)
    requires DbInv(db) && (a.OpenSession? || a.ReadOnlyToolCall?)
    requires if a.OpenSession? then a.id !in db.sessions else a.id !in db.toolCalls
    ensures var db' := Apply(System(db, map[]), a).db;
            DbInv(db') && Guarantee(pid, db, db')
  {
    match a
    case OpenSession(id, owner) => OpenSessionSafe(db, pid, id, owner);
    case ReadOnlyToolCall(id, customer, session, message, author) =>
      KeylessCallSafe(db, pid, id, ToolCall(customer, session, message, None, None, InProgress, author));
    case _ =>
  }

  lemma ApplySafe(s: System, a: Action)
    requires SystemInv(s)
    ensures SystemInv(Apply(s, a))
  {
    match a
    case Arrive(_, _, _) =>
    case Run(pid, c) => if pid in s.procs { RunSafe(s, pid, c); }
    case OpenSession(_, _) => EnvironmentSafe(s, a);
    case ReadOnlyToolCall(_, _, _, _, _) => EnvironmentSafe(s, a);
  }

  /** Every reachable system satisfies the invariant. */
  lemma {:induction false} ExecSafe(run: seq<Action>)
    ensures SystemInv(Exec(run))
  {
    if |run| > 0 {
      ExecSafe(run[..|run| - 1]);
      ApplySafe(Exec(run[..|run| - 1]), run[|run| - 1]);
    }
  }
}
