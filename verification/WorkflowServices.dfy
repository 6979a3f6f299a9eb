/**
 The workflow services as the source writes them: methods over the shared tables,
 one branch at a time. Each public method is proved to leave exactly the tables and
 the outcome that its process reaches when it is served on its own, so the theorems
 about runs speak about this code.
 */
module WorkflowServices {
  import opened Prelude
  import opened WorkflowStore
  import opened WorkflowInvariant

  /** A request whose item is missing or hidden ends there and writes nothing. */
  lemma NotLoaded(db: Db, pid: nat, scope: Scope, r: Request, c: Choice)
    requires r.Decide? && (r.op in {Approve, Reject} ==> HasApprovalAuthority(scope))
    requires Target(r) !in db.items
          || db.items[Target(r)].customer != scope.owner.customer
          || !OwnsSession(db, db.items[Target(r)].session,
                          scope.owner.(actor := SessionActor(scope, KindOf(r.op), db.items[Target(r)])))
          || !VisibleToActor(scope, KindOf(r.op), db.items[Target(r)])
    ensures Serve(db, pid, scope, r, c) == (db, Proc(scope, r, Done(NotFound)))
  {
    var first := StepStart(db, scope, r);
    Unroll(db, pid, Proc(scope, r, Start), c, db, first);
    if first.Loaded? {
      Unroll(db, pid, Proc(scope, r, first), c, db, Done(NotFound));
    }
  }

  /** The ToolCall row a run of the tool leaves behind. */
  function ToolRow(pid: nat, scope: Scope, r: Request, snap: Item, c: Choice): ToolCall
    requires r.Decide? && Present(r.key)
  {
    ToolCall(scope.owner.customer, snap.session, snap.message, r.key, Some(Target(r)),
             if c.ok then Succeeded else Unsuccessful, pid)
  }

  /** The tables after the tool ran: its row, the connector's log and the audit row. */
  function AfterTool(db: Db, pid: nat, scope: Scope, r: Request, snap: Item, c: Choice): Db
    requires r.Decide? && Present(r.key)
  {
    var event := if c.ok then SideEffectExecuted else SideEffectFailed;
    Append(db.(toolCalls := db.toolCalls[c.newId := ToolRow(pid, scope, r, snap, c)],
               calls := db.calls + [ConnectorCall(scope.owner.customer, r.key.value, c.newId, Target(r))]),
           SideEffectRow(event, scope, Target(r), snap, Some(c.newId)))
  }

  /** The four steps from reserving a free key to recording the connector's result. */
  lemma ToolRuns(db: Db, pid: nat, scope: Scope, r: Request, snap: Item, c: Choice)
    requires r.Decide? && Present(r.key)
    requires c.newId !in db.toolCalls && !KeyTaken(db.toolCalls, scope.owner.customer, r.key.value)
    ensures Finish(db, pid, Proc(scope, r, Create(snap)), c) ==
            Finish(AfterTool(db, pid, scope, r, snap, c), pid, Proc(scope, r, AfterGuard(snap, c.newId)), c)
  {
    var id, p := c.newId, Proc(scope, r, Create(snap));
    var (created, calling) := StepCreate(db, pid, scope, Target(r), r.key.value, snap, id);
    var (called, _) := StepCall(created, scope, Target(r), r.key.value, snap, id, c.ok);
    var (updated, _) := StepUpdate(called, scope, snap, id, c.ok);
    Unroll(db, pid, p, c, created, Call(snap, id));
    Unroll(created, pid, p.(pc := Call(snap, id)), c, called, Update(snap, id, c.ok));
    Unroll(called, pid, p.(pc := Update(snap, id, c.ok)), c, updated, Record(snap, id, c.ok));
    assert updated.toolCalls == db.toolCalls[id := ToolRow(pid, scope, r, snap, c)];
    Unroll(updated, pid, p.(pc := Record(snap, id, c.ok)), c, AfterTool(db, pid, scope, r, snap, c), AfterGuard(snap, id));
  }

  /** A row with a free key keeps the keys unique, whatever its execution becomes. */
  lemma NewKeyUnique(toolCalls: map<Id, ToolCall>, id: Id, row: ToolCall)
    requires UniqueKeys(toolCalls) && id !in toolCalls && row.key.Some?
    requires !KeyTaken(toolCalls, row.customer, row.key.value)
    ensures forall e :: UniqueKeys(toolCalls[id := row.(execution := e)])
  {
    forall e
      ensures UniqueKeys(toolCalls[id := row.(execution := e)])
    {
      var after := toolCalls[id := row.(execution := e)];
      assert forall i, cu, k :: HasKey(after, i, cu, k) && i != id ==> HasKey(toolCalls, i, cu, k);
    }
  }

  /** What the creation of an item checks of an execution plan. */
  datatype Plan = Plan(customer: Id, session: Id, message: Id)

  class Workflow {
    var sessions: map<Id, Owner>
    var messages: map<Id, Message>
    var toolCalls: map<Id, ToolCall>
    var items: map<ItemRef, Item>
    var audit: seq<AuditRow>
    var calls: seq<ConnectorCall>

    ghost function View(): Db
      reads this
    {
      Db(sessions, messages, toolCalls, items, audit, calls)
    }

    /** The unique constraint on the ToolCall table's customer and key columns. */
    ghost predicate Valid()
      reads this
    {
      UniqueKeys(toolCalls)
    }

    constructor ()
      ensures Valid() && View() == EMPTY_DB
    {
      sessions, messages, toolCalls, items := map[], map[], map[], map[];
      audit, calls := [], [];
    }

    // ------------------------------------------------------------ Shared queries

    method LoadVisible(scope: Scope, kind: Kind, id: Id) returns (r: Result<Item, Outcome>)
      ensures r.Err? ==> r.error == NotFound
      ensures var ref := ItemRef(kind, id);
              r == if ref in items && items[ref].customer == scope.owner.customer
                      && OwnsSession(View(), items[ref].session, scope.owner.(actor := SessionActor(scope, kind, items[ref])))
                      && VisibleToActor(scope, kind, items[ref])
                   then Ok(items[ref]) else Err(NotFound)
    {
      var ref := ItemRef(kind, id);
      if ref !in items || items[ref].customer != scope.owner.customer {
        return Err(NotFound);
      }
      var item := items[ref];
      var actor := if kind == ActionDraft then scope.owner.actor else item.requester;
      var session := if item.session in sessions then Some(sessions[item.session]) else None;
      if session != Some(scope.owner.(actor := actor)) || !VisibleToActor(scope, kind, item) {
        return Err(NotFound);
      }
      return Ok(item);
    }

    method AuditContextFound(owner: Owner, session: Id, message: Option<Id>) returns (found: bool)
      ensures found == AuditContextVisible(View(), owner, session, message)
    {
      if session !in sessions || sessions[session] != owner {
        return false;
      }
      if message.Some? {
        return message.value in messages
            && messages[message.value].customer == owner.customer
            && messages[message.value].session == session;
      }
      return true;
    }

    method AppendSideEffect(event: Event, scope: Scope, ref: ItemRef, snap: Item, toolCall: Option<Id>)
      modifies this`audit
      ensures View() == Append(old(View()), SideEffectRow(event, scope, ref, snap, toolCall))
    {
      audit := audit + [AuditRow(event, scope.owner, snap.session, snap.message, toolCall, ref)];
    }

    // ------------------------------------------------------- The execution guard

    /** Runs the tool of a decided item at most once per key. `pid` is the history
        value written to the new ToolCall row. */
    method Execute(pid: nat, scope: Scope, r: Request, snap: Item, c: Choice) returns (result: Result<Id, Outcome>)
      requires Valid() && r.Decide?
      modifies this`toolCalls, this`audit, this`calls
      ensures Valid()
      ensures Finish(old(View()), pid, Proc(scope, r, Parents(snap)), c) ==
              if result.Err? then (View(), Proc(scope, r, Done(result.error)))
              else Finish(View(), pid, Proc(scope, r, AfterGuard(snap, result.value)), c)
      ensures r.key.None? || r.key.value == "" || c.gate != Pass ==>
        result.Err? && toolCalls == old(toolCalls) && calls == old(calls)
      ensures result.Err? && result.error == Refused <==>
        && snap.session in sessions && sessions[snap.session] == scope.owner
        && OptionalMessageInSession(View(), snap.message, scope.owner.customer, snap.session)
        && (r.key.None? || r.key.value == "" || c.gate != Pass)
    {
      ghost var p := Proc(scope, r, Parents(snap));
      var ref := ItemRef(KindOf(r.op), r.id);
      var customer := scope.owner.customer;

      if snap.session !in sessions || sessions[snap.session] != scope.owner {
        return Err(NotFound);
      }
      Unroll(View(), pid, p, c, View(), ParentMessage(snap));
      if snap.message.Some? {
        var id := snap.message.value;
        if id !in messages || messages[id].customer != customer || messages[id].session != snap.session {
          return Err(NotFound);
        }
      }

      if !Present(r.key) {
        Unroll(View(), pid, p.(pc := ParentMessage(snap)), c, View(), Denied(snap));
        AppendSideEffect(SideEffectDenied, scope, ref, snap, None);
        return Err(Refused);
      }
      Unroll(View(), pid, p.(pc := ParentMessage(snap)), c, View(), Gates(snap));

      if c.gate != Pass {
        ghost var before := View();
        if c.gate == RefusePermission {
          AppendSideEffect(PermissionDenied, scope, ref, snap, None);
        }
        Unroll(before, pid, p.(pc := Gates(snap)), c, View(), Denied(snap));
        AppendSideEffect(SideEffectDenied, scope, ref, snap, None);
        return Err(Refused);
      }
      Unroll(View(), pid, p.(pc := Gates(snap)), c, View(), Lookup(snap));
      result := ExecuteAdmitted(pid, scope, r, snap, c);
    }

    /** The guard once its gates have passed: replay lookup, ToolCall, connector. */
    method ExecuteAdmitted(pid: nat, scope: Scope, r: Request, snap: Item, c: Choice) returns (result: Result<Id, Outcome>)
      requires Valid() && r.Decide? && Present(r.key)
      modifies this`toolCalls, this`audit, this`calls
      ensures Valid() && (result.Err? ==> result.error != Refused)
      ensures Finish(old(View()), pid, Proc(scope, r, Lookup(snap)), c) ==
              if result.Err? then (View(), Proc(scope, r, Done(result.error)))
              else Finish(View(), pid, Proc(scope, r, AfterGuard(snap, result.value)), c)
    {
      ghost var p := Proc(scope, r, Lookup(snap));
      var ref := ItemRef(KindOf(r.op), r.id);
      var customer, key := scope.owner.customer, r.key.value;

      if id :| id in toolCalls && toolCalls[id].customer == customer && toolCalls[id].key == Some(key) {
        assert HasKey(toolCalls, id, customer, key);
        assert KeyTaken(toolCalls, customer, key) && FindByKey(toolCalls, customer, key) == id;
        if toolCalls[id].session != snap.session || toolCalls[id].message != snap.message {
          return Err(NotFound);
        }
        Unroll(View(), pid, p, c, View(), Skip(snap, id));
        AppendSideEffect(SideEffectSkipped, scope, ref, snap, Some(id));
        return Ok(id);
      }
      assert !KeyTaken(toolCalls, customer, key) by {
        assert forall id :: !HasKey(toolCalls, id, customer, key);
      }
      Unroll(View(), pid, p, c, View(), Create(snap));

      result := RunTool(pid, scope, r, snap, c);
    }

    /** Reserves the key with a pending ToolCall, calls the connector and records its result. */
    method RunTool(pid: nat, scope: Scope, r: Request, snap: Item, c: Choice) returns (result: Result<Id, Outcome>)
      requires Valid() && r.Decide? && Present(r.key)
      requires !KeyTaken(toolCalls, scope.owner.customer, r.key.value)
      modifies this`toolCalls, this`audit, this`calls
      ensures Valid() && (result.Err? ==> result.error != Refused)
      ensures Finish(old(View()), pid, Proc(scope, r, Create(snap)), c) ==
              if result.Err? then (View(), Proc(scope, r, Done(result.error)))
              else Finish(View(), pid, Proc(scope, r, AfterGuard(snap, result.value)), c)
    {
      var ref := ItemRef(KindOf(r.op), r.id);
      var customer, key := scope.owner.customer, r.key.value;
      var id := c.newId;
      if id in toolCalls {
        return Err(StorageError);
      }
      ToolRuns(View(), pid, scope, r, snap, c);
      NewKeyUnique(toolCalls, id, ToolCall(customer, snap.session, snap.message, Some(key), Some(ref), InProgress, pid));
      ghost var before := toolCalls;
      toolCalls := toolCalls[id := ToolCall(customer, snap.session, snap.message, Some(key), Some(ref), InProgress, pid)];
      calls := calls + [ConnectorCall(customer, key, id, ref)];
      var ok := c.ok;
      toolCalls := toolCalls[id := toolCalls[id].(execution := if ok then Succeeded else Unsuccessful)];
      assert toolCalls == before[id := ToolRow(pid, scope, r, snap, c)];
      AppendSideEffect(if ok then SideEffectExecuted else SideEffectFailed, scope, ref, snap, Some(id));
      return Ok(id);
    }

    // ---------------------------------------------------- The deciding transaction

    /** Compare-and-set on the snapshot's status, then the audit row; on any failure
        the transaction leaves the tables as they were. */
    method Transition(scope: Scope, r: Request, snap: Item) returns (outcome: Outcome)
      requires r.Decide?
      modifies this`items, this`audit
      ensures (View(), Done(outcome)) == StepCommit(old(View()), scope, r, snap)
      ensures outcome != Completed ==> View() == old(View())
    {
      var ref := ItemRef(KindOf(r.op), r.id);
      var owner := scope.owner;
      if ref !in items || items[ref].customer != owner.customer || items[ref].status != snap.status {
        return Conflict;
      }
      var before := items;
      var row := items[ref];
      var key := if r.key.Some? then r.key else snap.key;
      match r.op {
        case Confirm => row := row.(status := Executed, key := key);
        case Approve => row := row.(status := Approved, decider := Some(owner.actor), key := key);
        case Reject => row := row.(status := Rejected, decider := Some(owner.actor));
        case CancelDraft => row := row.(status := Cancelled);
        case CancelApproval => row := row.(status := Cancelled);
        case Resolve =>
          row := row.(status := Resolved, decider := Some(owner.actor), requester := snap.requester, expiresAt := snap.expiresAt);
        case CancelEscalation =>
          row := row.(status := Cancelled, decider := snap.decider, requester := snap.requester, expiresAt := snap.expiresAt);
      }
      if (r.op == Confirm || r.op == Approve) && !ItemKeyFree(items, ref, row.customer, row.key) {
        return StorageError;
      }
      items := items[ref := row];
      var found := AuditContextFound(owner, row.session, row.message);
      if !found {
        items := before;
        return StorageError;
      }
      audit := audit + [AuditRow(DecisionEvent(r.op), owner, row.session, row.message, None, ref)];
      return Completed;
    }

    // --------------------------------------------------------- Action drafts

    method ConfirmDraft(pid: nat, scope: Scope, id: Id, key: Option<string>, c: Choice) returns (outcome: Outcome)
      requires Valid()
      modifies this
      ensures Valid()
      ensures Serve(old(View()), pid, scope, Decide(Confirm, id, key), c) ==
              (View(), Proc(scope, Decide(Confirm, id, key), Done(outcome)))
    {
      var r := Decide(Confirm, id, key);
      var loaded := LoadVisible(scope, ActionDraft, id);
      if loaded.Err? {
        NotLoaded(View(), pid, scope, r, c);
        return loaded.error;
      }
      var draft := loaded.value;
      ghost var p := Proc(scope, r, Loaded(draft));
      Unroll(View(), pid, p.(pc := Start), c, View(), Loaded(draft));

      if draft.status == Executed {
        if !(key.Some? && key.value != "" && draft.key == key) {
          return Conflict;
        }
        Unroll(View(), pid, p, c, View(), Parents(draft));
        outcome := Replay(pid, scope, r, draft, c);
        return;
      }
      if draft.expiresAt.Some? && draft.expiresAt.value <= c.now {
        return Conflict;
      }
      if draft.status == Confirmed && key.Some? && key.value != "" && draft.key == key {
        return AlreadyConfirmed;
      }
      if draft.status != Drafted && draft.status != WaitingConfirmation {
        return Conflict;
      }
      Unroll(View(), pid, p, c, View(), Parents(draft));
      outcome := ExecuteThenDecide(pid, scope, r, draft, c);
    }

    /** Repeats the guard for an item that was decided before. */
    method Replay(pid: nat, scope: Scope, r: Request, snap: Item, c: Choice) returns (outcome: Outcome)
      requires Valid() && r.Decide? && IsReplay(snap)
      modifies this`toolCalls, this`audit, this`calls
      ensures Valid()
      ensures Finish(old(View()), pid, Proc(scope, r, Parents(snap)), c) == (View(), Proc(scope, r, Done(outcome)))
    {
      var replay := Execute(pid, scope, r, snap, c);
      return if replay.Err? then replay.error else Replayed;
    }

    /** The guard, and then the deciding transaction. */
    method ExecuteThenDecide(pid: nat, scope: Scope, r: Request, snap: Item, c: Choice) returns (outcome: Outcome)
      requires Valid() && r.Decide? && !IsReplay(snap)
      modifies this
      ensures Valid()
      ensures Finish(old(View()), pid, Proc(scope, r, Parents(snap)), c) == (View(), Proc(scope, r, Done(outcome)))
    {
      var execution := Execute(pid, scope, r, snap, c);
      if execution.Err? {
        return execution.error;
      }
      ghost var db := View();
      outcome := Transition(scope, r, snap);
      Unroll(db, pid, Proc(scope, r, Commit(snap, Some(execution.value))), c, View(), Done(outcome));
    }

    method CancelActionDraft(pid: nat, scope: Scope, id: Id, c: Choice) returns (outcome: Outcome)
      requires Valid()
      modifies this
      ensures Valid()
      ensures Serve(old(View()), pid, scope, Decide(CancelDraft, id, None), c) ==
              (View(), Proc(scope, Decide(CancelDraft, id, None), Done(outcome)))
    {
      var r := Decide(CancelDraft, id, None);
      var loaded := LoadVisible(scope, ActionDraft, id);
      if loaded.Err? {
        NotLoaded(View(), pid, scope, r, c);
        return loaded.error;
      }
      var draft := loaded.value;
      ghost var p := Proc(scope, r, Loaded(draft));
      Unroll(View(), pid, p.(pc := Start), c, View(), Loaded(draft));
      if draft.status != Drafted && draft.status != WaitingConfirmation {
        return Conflict;
      }
      ghost var db := View();
      Unroll(db, pid, p, c, db, Commit(draft, None));
      outcome := Transition(scope, r, draft);
      Unroll(db, pid, p.(pc := Commit(draft, None)), c, View(), Done(outcome));
    }

    // --------------------------------------------------------- Approval requests

    method ApproveRequest(pid: nat, scope: Scope, id: Id, key: Option<string>, c: Choice) returns (outcome: Outcome)
      requires Valid()
      modifies this
      ensures Valid()
      ensures Serve(old(View()), pid, scope, Decide(Approve, id, key), c) ==
              (View(), Proc(scope, Decide(Approve, id, key), Done(outcome)))
    {
      var r := Decide(Approve, id, key);
      if !HasApprovalAuthority(scope) {
        Unroll(View(), pid, Proc(scope, r, Start), c, View(), Done(Forbidden));
        return Forbidden;
      }
      var loaded := LoadVisible(scope, ApprovalRequest, id);
      if loaded.Err? {
        NotLoaded(View(), pid, scope, r, c);
        return loaded.error;
      }
      var request := loaded.value;
      ghost var p := Proc(scope, r, Loaded(request));
      Unroll(View(), pid, p.(pc := Start), c, View(), Loaded(request));

      if request.status == Approved {
        if !(key.Some? && key.value != "" && request.key == key) {
          return Conflict;
        }
        Unroll(View(), pid, p, c, View(), Parents(request));
        outcome := Replay(pid, scope, r, request, c);
        return;
      }
      var live := PendingAndFresh(request, c.now);
      if !live {
        return Conflict;
      }
      Unroll(View(), pid, p, c, View(), Parents(request));
      outcome := ExecuteThenDecide(pid, scope, r, request, c);
    }

    method PendingAndFresh(request: Item, now: int) returns (live: bool)
      ensures live <==> request.status == Pending && !PastExpiry(request, now)
    {
      if request.expiresAt.Some? && request.expiresAt.value <= now {
        return false;
      }
      return request.status == Pending;
    }

    method RejectRequest(pid: nat, scope: Scope, id: Id, c: Choice) returns (outcome: Outcome)
      requires Valid()
      modifies this
      ensures Valid()
      ensures Serve(old(View()), pid, scope, Decide(Reject, id, None), c) ==
              (View(), Proc(scope, Decide(Reject, id, None), Done(outcome)))
    {
      var r := Decide(Reject, id, None);
      if !HasApprovalAuthority(scope) {
        Unroll(View(), pid, Proc(scope, r, Start), c, View(), Done(Forbidden));
        return Forbidden;
      }
      var loaded := LoadVisible(scope, ApprovalRequest, id);
      if loaded.Err? {
        NotLoaded(View(), pid, scope, r, c);
        return loaded.error;
      }
      var request := loaded.value;
      ghost var p := Proc(scope, r, Loaded(request));
      Unroll(View(), pid, p.(pc := Start), c, View(), Loaded(request));
      var live := PendingAndFresh(request, c.now);
      if !live {
        return Conflict;
      }
      ghost var db := View();
      Unroll(db, pid, p, c, db, Commit(request, None));
      outcome := Transition(scope, r, request);
      Unroll(db, pid, p.(pc := Commit(request, None)), c, View(), Done(outcome));
    }

    /** The cancel right is checked after visibility, which already implies it. */
    method CancelRequest(pid: nat, scope: Scope, id: Id, c: Choice) returns (outcome: Outcome)
      requires Valid()
      modifies this
      ensures Valid()
      ensures outcome != Forbidden
      ensures Serve(old(View()), pid, scope, Decide(CancelApproval, id, None), c) ==
              (View(), Proc(scope, Decide(CancelApproval, id, None), Done(outcome)))
    {
      var r := Decide(CancelApproval, id, None);
      var loaded := LoadVisible(scope, ApprovalRequest, id);
      if loaded.Err? {
        NotLoaded(View(), pid, scope, r, c);
        return loaded.error;
      }
      var request := loaded.value;
      ghost var p := Proc(scope, r, Loaded(request));
      Unroll(View(), pid, p.(pc := Start), c, View(), Loaded(request));
      if request.requester != scope.owner.actor && request.decider != Some(scope.owner.actor)
         && !HasApprovalAuthority(scope) {
        return Forbidden;
      }
      var live := PendingAndFresh(request, c.now);
      if !live {
        return Conflict;
      }
      ghost var db := View();
      Unroll(db, pid, p, c, db, Commit(request, None));
      outcome := Transition(scope, r, request);
      Unroll(db, pid, p.(pc := Commit(request, None)), c, View(), Done(outcome));
    }

    // ------------------------------------------------------ Escalation requests

    /** Resolves (`op` is Resolve) or cancels (`op` is CancelEscalation) an escalation. */
    method DecideEscalation(pid: nat, scope: Scope, op: Operation, id: Id, c: Choice) returns (outcome: Outcome)
      requires Valid() && (op == Resolve || op == CancelEscalation)
      modifies this
      ensures Valid()
      ensures Serve(old(View()), pid, scope, Decide(op, id, None), c) ==
              (View(), Proc(scope, Decide(op, id, None), Done(outcome)))
    {
      var r := Decide(op, id, None);
      var loaded := LoadVisible(scope, EscalationRequest, id);
      if loaded.Err? {
        NotLoaded(View(), pid, scope, r, c);
        return loaded.error;
      }
      var escalation := loaded.value;
      ghost var p := Proc(scope, r, Loaded(escalation));
      Unroll(View(), pid, p.(pc := Start), c, View(), Loaded(escalation));
      var authority := HasEscalationAuthority(scope);
      if !authority && (op == Resolve || escalation.requester != scope.owner.actor) {
        return Forbidden;
      }
      if escalation.status != Open {
        return Conflict;
      }
      if escalation.expiresAt.Some? && escalation.expiresAt.value <= c.now {
        return Conflict;
      }
      ghost var db := View();
      Unroll(db, pid, p, c, db, Commit(escalation, None));
      outcome := Transition(scope, r, escalation);
      Unroll(db, pid, p.(pc := Commit(escalation, None)), c, View(), Done(outcome));
    }

    // ------------------------------------------------------------ Item creation

    /** createForMediumRisk, createForHighRisk and createForCriticalRisk: the plan must be of
        the caller's customer and of this session. */
    method CreateItem(scope: Scope, session: Id, plan: Plan, reply: Id, kind: Kind, c: Choice) returns (outcome: Outcome)
      modifies this`items, this`audit
      ensures plan.customer != scope.owner.customer || plan.session != session ==> outcome == NotFound
      ensures plan.customer == scope.owner.customer && plan.session == session ==>
        Finish(old(View()), 0, Proc(scope, Send(session), SendParents(plan.message, reply, kind)), c) ==
        (View(), Proc(scope, Send(session), Done(outcome)))
      ensures outcome != Completed ==> View() == old(View())
    {
      if plan.customer != scope.owner.customer || plan.session != session {
        return NotFound;
      }
      outcome := CreateForPlan(scope, session, plan.message, reply, kind, c);
    }

    /** The checks of session, messages and tool, then the creating transaction. */
    method CreateForPlan(scope: Scope, session: Id, user: Id, reply: Id, kind: Kind, c: Choice) returns (outcome: Outcome)
      modifies this`items, this`audit
      ensures Finish(old(View()), 0, Proc(scope, Send(session), SendParents(user, reply, kind)), c) ==
              (View(), Proc(scope, Send(session), Done(outcome)))
      ensures outcome != Completed ==> View() == old(View())
    {
      ghost var p := Proc(scope, Send(session), SendParents(user, reply, kind));
      if session !in sessions || sessions[session] != scope.owner {
        return NotFound;
      }
      if user !in messages || messages[user].customer != scope.owner.customer || messages[user].session != session {
        return NotFound;
      }
      if reply !in messages || messages[reply].customer != scope.owner.customer || messages[reply].session != session {
        return NotFound;
      }
      if kind != EscalationRequest && c.gate != Pass {
        return Forbidden;
      }
      Unroll(View(), 0, p, c, View(), SendItem(reply, kind));

      outcome := InsertItem(scope, session, reply, kind, c);
    }

    /** The creating transaction itself: the row, the audit writer's check, the audit row. */
    method InsertItem(scope: Scope, session: Id, reply: Id, kind: Kind, c: Choice) returns (outcome: Outcome)
      modifies this`items, this`audit
      ensures (View(), Done(outcome)) == StepSendItem(old(View()), scope, session, reply, kind, c)
      ensures outcome != Completed ==> View() == old(View())
    {
      var ref := ItemRef(kind, c.newId);
      if ref in items {
        return StorageError;
      }
      var before := items;
      items := items[ref := Item(scope.owner.customer, session, Some(reply), scope.owner.actor, None,
                                 InitialStatus(kind), None, Some(c.now + Lifetime(kind)))];
      var found := AuditContextFound(scope.owner, session, Some(reply));
      if !found {
        items := before;
        return StorageError;
      }
      audit := audit + [AuditRow(CreationEvent(kind), scope.owner, session, Some(reply), None, ref)];
      return Completed;
    }
  }
}
