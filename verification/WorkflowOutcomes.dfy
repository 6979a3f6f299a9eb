/**
 What one request ends with and leaves behind, said of the tables and the request alone:
 who is turned away, whom the guard refuses, and what the decisions without a tool write.
 */
module WorkflowOutcomes {
  import opened Prelude
  import opened WorkflowStore
  import opened WorkflowInvariant
  import opened WorkflowTheorems

  // ------------------------------------------------------------ Who may do what

  predicate MayApprove(scope: Scope) {
    || "approver" in scope.roles
    || exists p :: p in scope.permissions
                   && (p == "orders:approve" || (|p| >= |":approve"| && p[|p| - |":approve"|..] == ":approve"))
  }

  predicate MayEscalate(scope: Scope) {
    || "admin" in scope.roles || "approver" in scope.roles
    || "escalation:manage" in scope.permissions || "orders:approve" in scope.permissions
  }

  /** The table the operation works on. */
  function ItemOf(op: Operation, id: Id): ItemRef {
    if op == Confirm || op == CancelDraft then ItemRef(ActionDraft, id)
    else if op == Resolve || op == CancelEscalation then ItemRef(EscalationRequest, id)
    else ItemRef(ApprovalRequest, id)
  }

  /** The item is of the caller's customer, in a session of the caller's organization and
      app, and the caller's own; a request or an escalation may also be one the caller has
      decided, or another's for an approver or one who manages escalations. */
  predicate Found(db: Db, scope: Scope, op: Operation, id: Id) {
    && ItemOf(op, id) in db.items
    && var item := db.items[ItemOf(op, id)];
    && item.customer == scope.owner.customer && item.session in db.sessions
    && db.sessions[item.session] == scope.owner.(actor := item.requester)
    && match ItemOf(op, id).kind
       case ActionDraft => item.requester == scope.owner.actor
       case ApprovalRequest =>
         item.requester == scope.owner.actor || item.decider == Some(scope.owner.actor) || MayApprove(scope)
       case EscalationRequest =>
         item.requester == scope.owner.actor || item.decider == Some(scope.owner.actor) || MayEscalate(scope)
  }

  predicate Undecided(op: Operation, item: Item) {
    if op == Confirm || op == CancelDraft then item.status == WaitingConfirmation
    else if op == Resolve || op == CancelEscalation then item.status == Open
    else item.status == Pending
  }

  predicate DecidedBefore(op: Operation, item: Item) {
    (op == Confirm && item.status == Executed) || (op == Approve && item.status == Approved)
  }

  /** With what a request ends that is turned away before it has any effect. */
  function TurnedAway(db: Db, scope: Scope, op: Operation, id: Id, key: Option<string>, now: int): Option<Outcome> {
    if (op == Approve || op == Reject) && !MayApprove(scope) then Some(Forbidden)
    else if !Found(db, scope, op, id) then Some(NotFound)
    else
      var item := db.items[ItemOf(op, id)];
      if !MayEscalate(scope) && (op == Resolve || (op == CancelEscalation && item.requester != scope.owner.actor)) then
        Some(Forbidden)
      else if Undecided(op, item) then
        if op != CancelDraft && item.expiresAt.Some? && item.expiresAt.value <= now then Some(Conflict) else None
      else if DecidedBefore(op, item) && key.Some? && key.value != "" && item.key == key then None
      else Some(Conflict)
  }

  lemma AuthoritiesAre(scope: Scope)
    ensures HasApprovalAuthority(scope) <==> MayApprove(scope)
    ensures HasEscalationAuthority(scope) <==> MayEscalate(scope)
  {
  }

  /** The load finds exactly the items a caller may find. */
  lemma LoadFinds(db: Db, scope: Scope, r: Request)
    requires DbInv(db) && r.Decide?
    ensures Target(r) == ItemOf(r.op, r.id)
    ensures Found(db, scope, r.op, r.id) <==>
            && Target(r) in db.items && db.items[Target(r)].customer == scope.owner.customer
            && OwnsSession(db, db.items[Target(r)].session,
                           scope.owner.(actor := SessionActor(scope, KindOf(r.op), db.items[Target(r)])))
            && VisibleToActor(scope, KindOf(r.op), db.items[Target(r)])
  {
    AuthoritiesAre(scope);
    if Target(r) in db.items {
      assert ItemPlaced(db.items[Target(r)], db.messages, db.sessions);
      assert RowWellFormed(Target(r).kind, db.items[Target(r)]);
    }
  }

  /** The checks before the first effect. */
  ghost predicate BranchesRight(db: Db, scope: Scope, r: Request, now: int)
    requires r.Decide? && Target(r) in db.items
  {
    var item := db.items[Target(r)];
    Branch(scope, r.op, r.key, item, now) ==
    match TurnedAway(db, scope, r.op, r.id, r.key, now)
    case Some(outcome) => Done(outcome)
    case None => if r.op == Confirm || r.op == Approve then Parents(item) else Commit(item, None)
  }

  lemma DraftBranches(db: Db, scope: Scope, r: Request, now: int)
    requires r.Decide? && Found(db, scope, r.op, r.id) && Target(r) == ItemOf(r.op, r.id)
    requires RowWellFormed(Target(r).kind, db.items[Target(r)]) && r.op in {Confirm, CancelDraft}
    ensures BranchesRight(db, scope, r, now)
  {
  }

  lemma RequestBranches(db: Db, scope: Scope, r: Request, now: int)
    requires r.Decide? && Found(db, scope, r.op, r.id) && Target(r) == ItemOf(r.op, r.id)
    requires RowWellFormed(Target(r).kind, db.items[Target(r)]) && r.op in {Approve, Reject, CancelApproval}
    requires r.op == CancelApproval || MayApprove(scope)
    ensures BranchesRight(db, scope, r, now)
  {
    AuthoritiesAre(scope);
  }

  lemma EscalationBranches(db: Db, scope: Scope, r: Request, now: int)
    requires r.Decide? && Found(db, scope, r.op, r.id) && Target(r) == ItemOf(r.op, r.id)
    requires RowWellFormed(Target(r).kind, db.items[Target(r)]) && r.op in {Resolve, CancelEscalation}
    ensures BranchesRight(db, scope, r, now)
  {
    AuthoritiesAre(scope);
  }

  lemma BranchIs(db: Db, scope: Scope, r: Request, now: int)
    requires DbInv(db) && r.Decide? && Found(db, scope, r.op, r.id)
    requires (r.op == Approve || r.op == Reject) ==> MayApprove(scope)
    ensures Target(r) in db.items && BranchesRight(db, scope, r, now)
  {
    LoadFinds(db, scope, r);
    assert RowWellFormed(Target(r).kind, db.items[Target(r)]);
    match KindOf(r.op)
    case ActionDraft => DraftBranches(db, scope, r, now);
    case ApprovalRequest => RequestBranches(db, scope, r, now);
    case EscalationRequest => EscalationBranches(db, scope, r, now);
  }

  lemma LoadedStep(db: Db, scope: Scope, r: Request, now: int)
    requires DbInv(db) && r.Decide? && StepStart(db, scope, r).Loaded?
    ensures Target(r) in db.items && StepStart(db, scope, r) == Loaded(db.items[Target(r)])
    ensures StepLoaded(db, scope, r, db.items[Target(r)], now) ==
            if Found(db, scope, r.op, r.id) then Branch(scope, r.op, r.key, db.items[Target(r)], now) else Done(NotFound)
  {
    LoadFinds(db, scope, r);
  }

  lemma LoadedIs(db: Db, scope: Scope, r: Request, now: int)
    requires DbInv(db) && r.Decide? && StepStart(db, scope, r).Loaded?
    requires TurnedAway(db, scope, r.op, r.id, r.key, now).Some?
    ensures Target(r) in db.items && StepStart(db, scope, r) == Loaded(db.items[Target(r)])
    ensures StepLoaded(db, scope, r, db.items[Target(r)], now) == Done(TurnedAway(db, scope, r.op, r.id, r.key, now).value)
  {
    AuthoritiesAre(scope);
    LoadedStep(db, scope, r, now);
    if Found(db, scope, r.op, r.id) {
      BranchIs(db, scope, r, now);
    }
  }

  /** A request that is turned away ends so and changes nothing at all. */
  lemma TurnedAwayDoesNothing(run: seq<Action>, pid: nat, scope: Scope, r: Request, c: Choice)
    requires r.Decide? && TurnedAway(Exec(run).db, scope, r.op, r.id, r.key, c.now).Some?
    ensures Serve(Exec(run).db, pid, scope, r, c) ==
            (Exec(run).db, Proc(scope, r, Done(TurnedAway(Exec(run).db, scope, r.op, r.id, r.key, c.now).value)))
  {
    ExecSafe(run);
    TurnsAway(Exec(run).db, pid, scope, r, c);
  }

  lemma TurnsAway(db: Db, pid: nat, scope: Scope, r: Request, c: Choice)
    requires DbInv(db) && r.Decide? && TurnedAway(db, scope, r.op, r.id, r.key, c.now).Some?
    ensures Serve(db, pid, scope, r, c) ==
            (db, Proc(scope, r, Done(TurnedAway(db, scope, r.op, r.id, r.key, c.now).value)))
  {
    AuthoritiesAre(scope);
    LoadFinds(db, scope, r);
    var first := StepStart(db, scope, r);
    Unroll(db, pid, Proc(scope, r, Start), c, db, first);
    if first.Loaded? {
      LoadedIs(db, scope, r, c.now);
      Unroll(db, pid, Proc(scope, r, first), c, db, StepLoaded(db, scope, r, db.items[Target(r)], c.now));
    }
  }

  /** Any other request gets to its guard, or to its transaction if it has no tool. */
  lemma LetThrough(db: Db, pid: nat, scope: Scope, r: Request, c: Choice)
    requires DbInv(db) && r.Decide? && TurnedAway(db, scope, r.op, r.id, r.key, c.now).None?
    ensures ItemOf(r.op, r.id) in db.items && Target(r) == ItemOf(r.op, r.id)
    ensures var item := db.items[Target(r)];
            Serve(db, pid, scope, r, c) ==
            Finish(db, pid, Proc(scope, r, if r.op == Confirm || r.op == Approve then Parents(item) else Commit(item, None)), c)
  {
    AuthoritiesAre(scope);
    LoadFinds(db, scope, r);
    var item := db.items[Target(r)];
    Unroll(db, pid, Proc(scope, r, Start), c, db, Loaded(item));
    LoadedStep(db, scope, r, c.now);
    BranchIs(db, scope, r, c.now);
    Unroll(db, pid, Proc(scope, r, Loaded(item)), c, db, StepLoaded(db, scope, r, item, c.now));
  }

  // --------------------------------------------------------------------- The guard

  /** The audit rows of a refusal: the permission precheck's own, then the denial. */
  function DenialRows(owner: Owner, ref: ItemRef, item: Item, precheck: bool): seq<AuditRow> {
    (if precheck then [AuditRow(PermissionDenied, owner, item.session, item.message, None, ref)] else [])
    + [AuditRow(SideEffectDenied, owner, item.session, item.message, None, ref)]
  }

  /** Confirming or approving without a key, or with a gate that refuses, ends refused: no
      ToolCall, connector call or item is touched, and the audit log grows by the denial,
      after a row of the permission precheck if that is what refused. */
  lemma GuardRefuses(run: seq<Action>, pid: nat, scope: Scope, r: Request, c: Choice)
    requires r.Decide? && (r.op == Confirm || r.op == Approve)
    requires TurnedAway(Exec(run).db, scope, r.op, r.id, r.key, c.now).None?
    requires var db := Exec(run).db; db.items[ItemOf(r.op, r.id)].requester == scope.owner.actor
    requires r.key.None? || r.key.value == "" || c.gate != Pass
    ensures var db := Exec(run).db;
            var ref := ItemOf(r.op, r.id);
            var precheck := r.key.Some? && r.key.value != "" && c.gate == RefusePermission;
            Serve(db, pid, scope, r, c) ==
            (db.(audit := db.audit + DenialRows(scope.owner, ref, db.items[ref], precheck)), Proc(scope, r, Done(Refused)))
  {
    ExecSafe(run);
    Refuses(Exec(run).db, pid, scope, r, c);
  }

  lemma Refuses(db: Db, pid: nat, scope: Scope, r: Request, c: Choice)
    requires DbInv(db) && r.Decide? && (r.op == Confirm || r.op == Approve)
    requires TurnedAway(db, scope, r.op, r.id, r.key, c.now).None?
    requires db.items[ItemOf(r.op, r.id)].requester == scope.owner.actor
    requires r.key.None? || r.key.value == "" || c.gate != Pass
    ensures var ref := ItemOf(r.op, r.id);
            var precheck := r.key.Some? && r.key.value != "" && c.gate == RefusePermission;
            Serve(db, pid, scope, r, c) ==
            (db.(audit := db.audit + DenialRows(scope.owner, ref, db.items[ref], precheck)), Proc(scope, r, Done(Refused)))
  {
    LetThrough(db, pid, scope, r, c);
    var item := db.items[Target(r)];
    assert ItemPlaced(item, db.messages, db.sessions);
    ParentsPass(db, pid, scope, r, c, item);
    if r.key.None? || r.key.value == "" {
      Denies(db, pid, scope, r, c, item);
      assert db.audit + DenialRows(scope.owner, Target(r), item, false)
             == db.audit + [SideEffectRow(SideEffectDenied, scope, Target(r), item, None)];
    } else {
      var denied := if c.gate == RefusePermission then Append(db, SideEffectRow(PermissionDenied, scope, Target(r), item, None))
                    else db;
      Unroll(db, pid, Proc(scope, r, Gates(item)), c, denied, Denied(item));
      Denies(denied, pid, scope, r, c, item);
      assert db.audit + DenialRows(scope.owner, Target(r), item, c.gate == RefusePermission)
             == denied.audit + [SideEffectRow(SideEffectDenied, scope, Target(r), item, None)];
    }
  }

  lemma ParentsPass(db: Db, pid: nat, scope: Scope, r: Request, c: Choice, item: Item)
    requires r.Decide? && OwnsSession(db, item.session, scope.owner)
    requires OptionalMessageInSession(db, item.message, scope.owner.customer, item.session)
    ensures Finish(db, pid, Proc(scope, r, Parents(item)), c) ==
            Finish(db, pid, Proc(scope, r, if r.key.Some? && r.key.value != "" then Gates(item) else Denied(item)), c)
  {
    Unroll(db, pid, Proc(scope, r, Parents(item)), c, db, ParentMessage(item));
    Unroll(db, pid, Proc(scope, r, ParentMessage(item)), c, db,
           if r.key.Some? && r.key.value != "" then Gates(item) else Denied(item));
  }

  lemma Denies(db: Db, pid: nat, scope: Scope, r: Request, c: Choice, item: Item)
    requires r.Decide?
    ensures Finish(db, pid, Proc(scope, r, Denied(item)), c) ==
            (Append(db, SideEffectRow(SideEffectDenied, scope, Target(r), item, None)), Proc(scope, r, Done(Refused)))
  {
    Unroll(db, pid, Proc(scope, r, Denied(item)), c,
           Append(db, SideEffectRow(SideEffectDenied, scope, Target(r), item, None)), Done(Refused));
  }

  /** The guard looks for the caller's own session: an approver who is not the requester
      ends as not found, and nothing changes. */
  lemma GuardNeedsOwnSession(run: seq<Action>, pid: nat, scope: Scope, r: Request, c: Choice)
    requires r.Decide? && (r.op == Confirm || r.op == Approve)
    requires TurnedAway(Exec(run).db, scope, r.op, r.id, r.key, c.now).None?
    requires var db := Exec(run).db; db.items[ItemOf(r.op, r.id)].requester != scope.owner.actor
    ensures Serve(Exec(run).db, pid, scope, r, c) == (Exec(run).db, Proc(scope, r, Done(NotFound)))
  {
    ExecSafe(run);
    var db := Exec(run).db;
    LetThrough(db, pid, scope, r, c);
    Unroll(db, pid, Proc(scope, r, Parents(db.items[Target(r)])), c, db, Done(NotFound));
  }

  predicate RefusedOrDenied(p: Proc) {
    p.pc.Denied? || p.pc == Done(Refused)
  }

  /** Whatever runs beside it, a request whose gate refuses is on its way to its refusal
      for good, and no step of it from then on touches a ToolCall, the connector's log or an
      item. */
  lemma RefusedNeverActs(run: seq<Action>, pid: nat, c: Choice, more: seq<Action>, d: Choice)
    requires pid in Exec(run).procs && Exec(run).procs[pid].request.Decide? && Exec(run).procs[pid].pc.Gates?
    requires c.gate != Pass
    ensures var s, t := Exec(run), Exec(run + [Run(pid, c)]);
            t.db == s.db.(audit := t.db.audit)
    ensures var s, t := Exec(run + [Run(pid, c)] + more), Exec(run + [Run(pid, c)] + more + [Run(pid, d)]);
            pid in s.procs && RefusedOrDenied(s.procs[pid]) && t.db == s.db.(audit := t.db.audit)
  {
    ExecAppend(run, Run(pid, c));
    StaysRefused(run + [Run(pid, c)], pid, more);
    ExecAppend(run + [Run(pid, c)] + more, Run(pid, d));
  }

  lemma {:induction false} StaysRefused(run: seq<Action>, pid: nat, more: seq<Action>)
    requires pid in Exec(run).procs && Exec(run).procs[pid].request.Decide? && RefusedOrDenied(Exec(run).procs[pid])
    ensures pid in Exec(run + more).procs && Exec(run + more).procs[pid].request.Decide?
    ensures RefusedOrDenied(Exec(run + more).procs[pid])
  {
    if |more| == 0 {
      assert run + more == run;
    } else {
      var shorter, last := more[..|more| - 1], more[|more| - 1];
      StaysRefused(run, pid, shorter);
      assert run + more == (run + shorter) + [last];
      ExecAppend(run + shorter, last);
    }
  }

  // --------------------------------------------------------- Decisions without a tool

  /** The row after a decision that runs no tool. */
  function RowAfter(op: Operation, item: Item, actor: Id): Item {
    if op == Reject then item.(status := Rejected, decider := Some(actor))
    else if op == Resolve then item.(status := Resolved, decider := Some(actor))
    else item.(status := Cancelled)
  }

  function EventOf(op: Operation): Event {
    match op
    case CancelDraft => DraftCancelled
    case Reject => ApprovalRejected
    case CancelApproval => ApprovalCancelled
    case Resolve => EscalationResolved
    case CancelEscalation => EscalationCancelled
    case Confirm => DraftConfirmed
    case Approve => ApprovalApproved
  }

  /** Rejecting, resolving and cancelling: for the requester the row is decided and one
      audit row says so; anyone else the load let through fails in the audit writer, and
      nothing changes. */
  lemma DecidesWithoutTool(run: seq<Action>, pid: nat, scope: Scope, r: Request, c: Choice)
    requires r.Decide? && r.op != Confirm && r.op != Approve
    requires TurnedAway(Exec(run).db, scope, r.op, r.id, r.key, c.now).None?
    ensures var db := Exec(run).db;
            var ref := ItemOf(r.op, r.id);
            var item := db.items[ref];
            Serve(db, pid, scope, r, c) ==
            if item.requester == scope.owner.actor then
              (db.(items := db.items[ref := RowAfter(r.op, item, scope.owner.actor)],
                   audit := db.audit + [AuditRow(EventOf(r.op), scope.owner, item.session, item.message, None, ref)]),
               Proc(scope, r, Done(Completed)))
            else (db, Proc(scope, r, Done(StorageError)))
  {
    ExecSafe(run);
    var db := Exec(run).db;
    LetThrough(db, pid, scope, r, c);
    CommitIs(db, scope, r, c.now);
    var (db', pc') := StepCommit(db, scope, r, db.items[Target(r)]);
    Unroll(db, pid, Proc(scope, r, Commit(db.items[Target(r)], None)), c, db', pc');
  }

  lemma CommitIs(db: Db, scope: Scope, r: Request, now: int)
    requires DbInv(db) && r.Decide? && r.op != Confirm && r.op != Approve
    requires TurnedAway(db, scope, r.op, r.id, r.key, now).None? && Target(r) == ItemOf(r.op, r.id)
    ensures var ref := ItemOf(r.op, r.id);
            var item := db.items[ref];
            StepCommit(db, scope, r, item) ==
            if item.requester == scope.owner.actor then
              (db.(items := db.items[ref := RowAfter(r.op, item, scope.owner.actor)],
                   audit := db.audit + [AuditRow(EventOf(r.op), scope.owner, item.session, item.message, None, ref)]),
               Done(Completed))
            else (db, Done(StorageError))
  {
    var item := db.items[Target(r)];
    assert ItemPlaced(item, db.messages, db.sessions);
    assert RowWellFormed(Target(r).kind, item);
  }

  // ------------------------------------------------------------ Decisions with a tool

  /** The tables after a first confirmation or approval. */
  function Performed(db: Db, pid: nat, scope: Scope, op: Operation, id: Id, key: string, c: Choice): Db
    requires ItemOf(op, id) in db.items
  {
    var ref, owner := ItemOf(op, id), scope.owner;
    var item := db.items[ref];
    var row := ToolCall(owner.customer, item.session, item.message, Some(key), Some(ref),
                        if c.ok then Succeeded else Unsuccessful, pid);
    var decided := if op == Confirm then item.(status := Executed, key := Some(key))
                   else item.(status := Approved, decider := Some(owner.actor), key := Some(key));
    db.(toolCalls := db.toolCalls[c.newId := row],
        calls := db.calls + [ConnectorCall(owner.customer, key, c.newId, ref)],
        items := db.items[ref := decided],
        audit := db.audit
                 + [AuditRow(if c.ok then SideEffectExecuted else SideEffectFailed, owner, item.session, item.message,
                             Some(c.newId), ref)]
                 + [AuditRow(EventOf(op), owner, item.session, item.message, None, ref)])
  }

  /** A requester whose gates pass and whose key is free: the whole of what a first
      confirmation or approval writes. */
  lemma DecidesWithTool(run: seq<Action>, pid: nat, scope: Scope, r: Request, c: Choice)
    requires r.Decide? && (r.op == Confirm || r.op == Approve) && r.key.Some? && r.key.value != "" && c.gate == Pass
    requires TurnedAway(Exec(run).db, scope, r.op, r.id, r.key, c.now).None?
    requires var db := Exec(run).db;
             var item := db.items[ItemOf(r.op, r.id)];
             && item.requester == scope.owner.actor && Undecided(r.op, item) && c.newId !in db.toolCalls
             && forall id :: id in db.toolCalls && db.toolCalls[id].customer == scope.owner.customer ==>
                  db.toolCalls[id].key != r.key
    ensures Serve(Exec(run).db, pid, scope, r, c) ==
            (Performed(Exec(run).db, pid, scope, r.op, r.id, r.key.value, c), Proc(scope, r, Done(Completed)))
  {
    ExecSafe(run);
    Performs(Exec(run).db, pid, scope, r, c);
  }

  lemma Performs(db: Db, pid: nat, scope: Scope, r: Request, c: Choice)
    requires DbInv(db)
    requires r.Decide? && (r.op == Confirm || r.op == Approve) && r.key.Some? && r.key.value != "" && c.gate == Pass
    requires TurnedAway(db, scope, r.op, r.id, r.key, c.now).None?
    requires var item := db.items[ItemOf(r.op, r.id)];
             && item.requester == scope.owner.actor && Undecided(r.op, item) && c.newId !in db.toolCalls
             && forall id :: id in db.toolCalls && db.toolCalls[id].customer == scope.owner.customer ==>
                  db.toolCalls[id].key != r.key
    ensures Serve(db, pid, scope, r, c) ==
            (Performed(db, pid, scope, r.op, r.id, r.key.value, c), Proc(scope, r, Done(Completed)))
  {
    LetThrough(db, pid, scope, r, c);
    var item, id := db.items[Target(r)], c.newId;
    assert ItemPlaced(item, db.messages, db.sessions);
    ParentsPass(db, pid, scope, r, c, item);
    Unroll(db, pid, Proc(scope, r, Gates(item)), c, db, Lookup(item));
    LookupExecutes(db, pid, scope, r, item, c);
    CommitsPerformed(db, pid, scope, r, c);
  }

  lemma CommitsPerformed(db: Db, pid: nat, scope: Scope, r: Request, c: Choice)
    requires DbInv(db) && r.Decide? && (r.op == Confirm || r.op == Approve) && Present(r.key)
    requires Target(r) == ItemOf(r.op, r.id) && Target(r) in db.items
    requires var item := db.items[Target(r)];
             && item.requester == scope.owner.actor && OwnsSession(db, item.session, scope.owner)
             && Undecided(r.op, item) && c.newId !in db.toolCalls && !KeyTaken(db.toolCalls, scope.owner.customer, r.key.value)
    ensures var item, id := db.items[Target(r)], c.newId;
            Finish(WorkflowTheorems.Executed(db, pid, scope, Target(r), r.key.value, item, id, c.ok), pid,
                   Proc(scope, r, Commit(item, Some(id))), c)
            == (Performed(db, pid, scope, r.op, r.id, r.key.value, c), Proc(scope, r, Done(Completed)))
  {
    var item, id := db.items[Target(r)], c.newId;
    var now := WorkflowTheorems.Executed(db, pid, scope, Target(r), r.key.value, item, id, c.ok);
    FreshKeyUnique(db.toolCalls, now.toolCalls, id, scope.owner.customer, r.key.value);
    CommitGoesThrough(db, now, scope, r, id);
    CommittedIs(db, now, pid, scope, r, c);
    Unroll(now, pid, Proc(scope, r, Commit(item, Some(id))), c, StepCommit(now, scope, r, item).0, Done(Completed));
  }

  lemma CommittedIs(db: Db, now: Db, pid: nat, scope: Scope, r: Request, c: Choice)
    requires r.Decide? && (r.op == Confirm || r.op == Approve) && Present(r.key)
    requires Target(r) == ItemOf(r.op, r.id) && Target(r) in db.items
    requires now == WorkflowTheorems.Executed(db, pid, scope, Target(r), r.key.value, db.items[Target(r)], c.newId, c.ok)
    requires StepCommit(now, scope, r, db.items[Target(r)]).1 == Done(Completed)
    ensures StepCommit(now, scope, r, db.items[Target(r)]).0 == Performed(db, pid, scope, r.op, r.id, r.key.value, c)
  {
  }

  // ------------------------------------------------------------ The deciding transaction

  /** Another item of the kind and customer has the key. */
  predicate KeyElsewhere(items: map<ItemRef, Item>, ref: ItemRef, customer: Id, key: Option<string>) {
    exists other :: && other in items && other != ref && other.kind == ref.kind && items[other].customer == customer
                    && items[other].key.Some? && items[other].key == key
  }

  /** The row after any decision. */
  function DecidedRow(op: Operation, item: Item, actor: Id, key: Option<string>): Item {
    match op
    case Confirm => item.(status := Executed, key := key)
    case Approve => item.(status := Approved, decider := Some(actor), key := key)
    case _ => RowAfter(op, item, actor)
  }

  /** What the transaction of a request comes to over these tables. */
  ghost predicate Transacts(db: Db, owner: Owner, op: Operation, id: Id, key: Option<string>, db': Db, pc': Pc)
    requires ItemOf(op, id) in db.items
  {
    var ref := ItemOf(op, id);
    var item := db.items[ref];
    if !Undecided(op, item) then pc' == Done(Conflict) && db' == db
    else if || item.session !in db.sessions || db.sessions[item.session] != owner
            || ((op == Confirm || op == Approve) && KeyElsewhere(db.items, ref, owner.customer, key)) then
      pc' == Done(StorageError) && db' == db
    else
      && pc' == Done(Completed)
      && db' == db.(items := db.items[ref := DecidedRow(op, item, owner.actor, key)],
                    audit := db.audit + [AuditRow(EventOf(op), owner, item.session, item.message, None, ref)])
  }

  /** In every run: the transaction conflicts exactly when the item has been decided since,
      is rolled back when the session is not the caller's or another item has the key, and
      else writes the decided row with its audit row. */
  lemma TransactionIs(run: seq<Action>, pid: nat, c: Choice)
    requires pid in Exec(run).procs && Exec(run).procs[pid].request.Decide? && Exec(run).procs[pid].pc.Commit?
    ensures var s, t := Exec(run), Exec(run + [Run(pid, c)]);
            var p, r := s.procs[pid], s.procs[pid].request;
            && ItemOf(r.op, r.id) in s.db.items && pid in t.procs
            && Transacts(s.db, p.scope.owner, r.op, r.id, r.key, t.db, t.procs[pid].pc)
  {
    ExecSafe(run);
    ExecAppend(run, Run(pid, c));
    var s := Exec(run);
    assert ProcInv(s.db, pid, s.procs[pid]);
    CommitTransacts(s.db, s.procs[pid].scope, s.procs[pid].request, s.procs[pid].pc.snap);
  }

  lemma CommitTransacts(db: Db, scope: Scope, r: Request, snap: Item)
    requires DbInv(db) && r.Decide? && KnowsItem(db, scope, Target(r), snap)
    requires snap.status == InitialStatus(KindOf(r.op)) && (Guarded(r.op) ==> Present(r.key))
    ensures Target(r) == ItemOf(r.op, r.id)
    ensures var (db', pc') := StepCommit(db, scope, r, snap);
            Transacts(db, scope.owner, r.op, r.id, r.key, db', pc')
  {
    var item := db.items[Target(r)];
    assert ItemPlaced(item, db.messages, db.sessions);
    assert RowWellFormed(Target(r).kind, item);
  }

  // ---------------------------------------------------------------------- Sends

  predicate LiesIn(db: Db, message: Id, customer: Id, session: Id) {
    message in db.messages && db.messages[message].customer == customer && db.messages[message].session == session
  }

  /** The steps of a send up to its item: the session must be the caller's and pass its
      gate, both messages are stored under new ids, and a draft or an approval request needs
      its tool to pass. */
  lemma SendStepIs(run: seq<Action>, pid: nat, c: Choice)
    requires pid in Exec(run).procs && Exec(run).procs[pid].request.Send?
    ensures var s, t := Exec(run), Exec(run + [Run(pid, c)]);
            var p, owner, session := s.procs[pid], s.procs[pid].scope.owner, s.procs[pid].request.session;
            pid in t.procs &&
            match p.pc
            case Start =>
              && t.db == s.db
              && t.procs[pid].pc == if session in s.db.sessions && s.db.sessions[session] == owner && c.gate == Pass
                                    then SendUser else Done(NotFound)
            case SendUser =>
              if c.newId in s.db.messages then t.db == s.db && t.procs[pid].pc == Done(StorageError)
              else
                && t.db == s.db.(messages := s.db.messages[c.newId := Message(owner.customer, session, pid)])
                && t.procs[pid].pc == SendReply(c.newId)
            case SendReply(user) =>
              if c.newId in s.db.messages then t.db == s.db && t.procs[pid].pc == Done(StorageError)
              else
                && t.db == s.db.(messages := s.db.messages[c.newId := Message(owner.customer, session, pid)])
                && t.procs[pid].pc == if c.branch.None? then Done(Completed) else SendParents(user, c.newId, c.branch.value)
            case SendParents(user, reply, kind) =>
              && t.db == s.db
              && t.procs[pid].pc ==
                 if session in s.db.sessions && s.db.sessions[session] == owner
                    && LiesIn(s.db, user, owner.customer, session) && LiesIn(s.db, reply, owner.customer, session) then
                   if c.gate != Pass && (kind == ActionDraft || kind == ApprovalRequest) then Done(Forbidden)
                   else SendItem(reply, kind)
                 else Done(NotFound)
            case _ => true
  {
    ExecAppend(run, Run(pid, c));
  }

  // ---------------------------------------------------------------------- New items

  /** A send creates its item waiting, for its own actor, on its reply, and for 15 minutes,
      an hour or a day. */
  lemma NewItemIs(run: seq<Action>, pid: nat, c: Choice)
    requires pid in Exec(run).procs && Exec(run).procs[pid].request.Send? && Exec(run).procs[pid].pc.SendItem?
    ensures var s, t := Exec(run), Exec(run + [Run(pid, c)]);
            var p, kind := s.procs[pid], s.procs[pid].pc.kind;
            var ref, owner, session, reply := ItemRef(kind, c.newId), p.scope.owner, p.request.session, Some(p.pc.reply);
            var (status, event, lifetime) :=
              match kind
              case ActionDraft => (WaitingConfirmation, DraftCreated, 900000)
              case ApprovalRequest => (Pending, ApprovalCreated, 3600000)
              case EscalationRequest => (Open, EscalationCreated, 86400000);
            if ref !in s.db.items && session in s.db.sessions && s.db.sessions[session] == owner then
              t.procs[pid].pc == Done(Completed) &&
              t.db == s.db.(
                items := s.db.items[ref := Item(owner.customer, session, reply, owner.actor, None, status, None,
                                                Some(c.now + lifetime))],
                audit := s.db.audit + [AuditRow(event, owner, session, reply, None, ref)])
            else t.procs[pid].pc == Done(StorageError) && t.db == s.db
  {
    ExecSafe(run);
    ExecAppend(run, Run(pid, c));
    assert ProcInv(Exec(run).db, pid, Exec(run).procs[pid]);
  }
}
