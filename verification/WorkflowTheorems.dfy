/**
 What the workflow guarantees over every run: any number of requests, in any
 interleaving, each of which may stop at any point and be retried.
 */
module WorkflowTheorems {
  import opened Prelude
  import opened WorkflowStore
  import opened WorkflowInvariant

  // ---------------------------------------------------------------- Idempotency

  /** The connector is called at most once per customer and idempotency key. */
  lemma ConnectorAtMostOncePerKey(run: seq<Action>, k: nat, l: nat)
    requires k < l < |Exec(run).db.calls|
    ensures var calls := Exec(run).db.calls;
            calls[k].customer != calls[l].customer || calls[k].key != calls[l].key
  {
    ExecSafe(run);
    var db := Exec(run).db;
    assert CallLogged(db.calls[k], db.toolCalls) && CallLogged(db.calls[l], db.toolCalls);
  }

  /** An executed draft or approved request carries a non-empty key that exactly one
      ToolCall of its customer holds; that call is of its session and message and was
      created for it. */
  lemma ExecutedIsBackedOnce(run: seq<Action>, ref: ItemRef) returns (id: Id)
    requires ref in Exec(run).db.items && IsReplay(Exec(run).db.items[ref])
    ensures var db := Exec(run).db;
            var item := db.items[ref];
            && Present(item.key)
            && HasKey(db.toolCalls, id, item.customer, item.key.value)
            && db.toolCalls[id].session == item.session && db.toolCalls[id].message == item.message
            && db.toolCalls[id].source == Some(ref)
            && forall other :: HasKey(db.toolCalls, other, item.customer, item.key.value) ==> other == id
  {
    ExecSafe(run);
    var db := Exec(run).db;
    assert IsBacked(db.toolCalls, ref, db.items[ref]);
    id :| Backs(db.toolCalls, id, ref, db.items[ref]);
    assert CallBelongs(db.toolCalls[id], db.items);
  }

  /** A ToolCall that the guard reports as a duplicate was created for the very item
      the request decides. */
  lemma DuplicateIsOfSameItem(run: seq<Action>, pid: nat)
    requires pid in Exec(run).procs && Exec(run).procs[pid].pc.Skip?
    ensures var s := Exec(run);
            var p := s.procs[pid];
            && p.request.Decide? && p.pc.toolCall in s.db.toolCalls
            && s.db.toolCalls[p.pc.toolCall].source == Some(Target(p.request))
            && s.db.toolCalls[p.pc.toolCall].key == p.request.key
  {
    ExecSafe(run);
    assert ProcInv(Exec(run).db, pid, Exec(run).procs[pid]);
  }

  /** A key that backs a call of another item is refused: nothing is written. */
  lemma KeyOfOtherItemRefused(run: seq<Action>, pid: nat, c: Choice, id: Id)
    requires pid in Exec(run).procs && Exec(run).procs[pid].request.Decide? && Exec(run).procs[pid].pc.Lookup?
    requires var p := Exec(run).procs[pid];
             && p.request.key.Some?
             && HasKey(Exec(run).db.toolCalls, id, p.scope.owner.customer, p.request.key.value)
             && Exec(run).db.toolCalls[id].source != Some(Target(p.request))
    ensures Exec(run + [Run(pid, c)]).db == Exec(run).db
    ensures Exec(run + [Run(pid, c)]).procs[pid].pc == Done(NotFound)
  {
    ExecSafe(run);
    ExecAppend(run, Run(pid, c));
    var s := Exec(run);
    var p := s.procs[pid];
    assert ProcInv(s.db, pid, p);
    assert CallBelongs(s.db.toolCalls[id], s.db.items);
  }

  lemma ExecAppend(run: seq<Action>, a: Action)
    ensures Exec(run + [a]) == Apply(Exec(run), a)
  {
    assert (run + [a])[..|run|] == run;
  }

  /** One message backs at most one item, of whatever kind. */
  lemma MessageBacksOneItem(run: seq<Action>, a: ItemRef, b: ItemRef)
    requires a in Exec(run).db.items && b in Exec(run).db.items && a != b
    ensures Exec(run).db.items[a].message.Some?
    ensures Exec(run).db.items[a].message != Exec(run).db.items[b].message
  {
    ExecSafe(run);
    var db := Exec(run).db;
    assert ItemPlaced(db.items[a], db.messages, db.sessions);
  }

  predicate Acting(pc: Pc) {
    pc.Create? || pc.Call? || pc.Update? || pc.Record? || pc.Commit?
  }

  /** A request that loaded its item already executed or approved never creates a
      ToolCall, calls the connector or commits, whatever runs beside it. */
  lemma ReplayNeverActs(run: seq<Action>, pid: nat)
    requires pid in Exec(run).procs && Acting(Exec(run).procs[pid].pc)
    ensures !IsReplay(Exec(run).procs[pid].pc.snap)
  {
    ExecSafe(run);
    assert ProcInv(Exec(run).db, pid, Exec(run).procs[pid]);
  }

  /** Whatever runs beside it, the lookup of a replay finds the item's own call and
      changes no table: the duplicate branch is always the one taken. */
  lemma ReplayFindsItsCall(run: seq<Action>, pid: nat, c: Choice)
    requires pid in Exec(run).procs && Exec(run).procs[pid].request.Decide?
    requires Exec(run).procs[pid].pc.Lookup? && IsReplay(Exec(run).procs[pid].pc.snap)
    ensures var s, s' := Exec(run), Exec(run + [Run(pid, c)]);
            var p, p' := s.procs[pid], s'.procs[pid];
            && s'.db == s.db && p'.pc.Skip? && p'.pc.snap == p.pc.snap
            && p'.pc.toolCall in s.db.toolCalls
            && s.db.toolCalls[p'.pc.toolCall].source == Some(Target(p.request))
            && s.db.toolCalls[p'.pc.toolCall].key == p.request.key
  {
    ExecSafe(run);
    ExecAppend(run, Run(pid, c));
    var s := Exec(run);
    var p := s.procs[pid];
    assert ProcInv(s.db, pid, p);
    LookupSafe(s.db, pid, p.scope, p.request, p.pc.snap);
  }

  /** And what a replay does next is one skipped row and the end. */
  lemma ReplayEnds(run: seq<Action>, pid: nat, c: Choice)
    requires pid in Exec(run).procs && Exec(run).procs[pid].request.Decide?
    requires Exec(run).procs[pid].pc.Skip? && IsReplay(Exec(run).procs[pid].pc.snap)
    ensures var s, s' := Exec(run), Exec(run + [Run(pid, c)]);
            var p := s.procs[pid];
            && s'.db == Append(s.db, SideEffectRow(SideEffectSkipped, p.scope, Target(p.request), p.pc.snap, Some(p.pc.toolCall)))
            && s'.procs[pid].pc == Done(Replayed)
  {
    ExecAppend(run, Run(pid, c));
  }

  // ------------------------------------------------------- Status and audit log

  /** Folding an item's committed workflow rows in order gives exactly its status. */
  lemma StatusIsFold(run: seq<Action>, ref: ItemRef)
    ensures var db := Exec(run).db;
            Fold(db.audit, ref) == if ref in db.items then At(db.items[ref].status) else Absent
  {
    ExecSafe(run);
  }

  predicate IsDecisionOf(row: AuditRow, ref: ItemRef) {
    row.item == ref && !Neutral(row.event) && row.event != CreationEvent(ref.kind)
  }

  function DecisionRows(audit: seq<AuditRow>, ref: ItemRef): nat {
    if |audit| == 0 then 0
    else
      DecisionRows(audit[..|audit| - 1], ref) + if IsDecisionOf(audit[|audit| - 1], ref) then 1 else 0
  }

  lemma {:induction false} FoldCountsDecisions(audit: seq<AuditRow>, ref: ItemRef)
    requires Fold(audit, ref) != Broken
    ensures DecisionRows(audit, ref) ==
            if Fold(audit, ref) in {Absent, At(InitialStatus(ref.kind))} then 0 else 1
  {
    if |audit| > 0 {
      FoldCountsDecisions(audit[..|audit| - 1], ref);
    }
  }

  /** An item has one decision row once it left its initial status and none before:
      the losers of a compare-and-set leave no decision row. */
  lemma OneDecisionRowPerDecision(run: seq<Action>, ref: ItemRef)
    requires ref in Exec(run).db.items
    ensures var db := Exec(run).db;
            DecisionRows(db.audit, ref) == if db.items[ref].status == InitialStatus(ref.kind) then 0 else 1
  {
    ExecSafe(run);
    FoldCountsDecisions(Exec(run).db.audit, ref);
  }

  /** Once an item has left its initial status its row never changes again. */
  lemma {:induction false} DecidedForever(run: seq<Action>, more: seq<Action>, ref: ItemRef)
    requires ref in Exec(run).db.items && Exec(run).db.items[ref].status != InitialStatus(ref.kind)
    ensures ref in Exec(run + more).db.items && Exec(run + more).db.items[ref] == Exec(run).db.items[ref]
  {
    if |more| == 0 {
      assert run + more == run;
    } else {
      var shorter := more[..|more| - 1];
      DecidedForever(run, shorter, ref);
      assert run + more == (run + shorter) + [more[|more| - 1]];
      ExecAppend(run + shorter, more[|more| - 1]);
      ItemsOnlyMove(run + shorter, more[|more| - 1]);
    }
  }

  /** Every action lets an item's row stay or leave its initial status. */
  lemma ItemsOnlyMove(run: seq<Action>, a: Action)
    ensures ItemsGrow(Exec(run).db.items, Apply(Exec(run), a).db.items)
  {
    ExecSafe(run);
    var s := Exec(run);
    if a.Run? && a.pid in s.procs {
      assert ProcInv(s.db, a.pid, s.procs[a.pid]);
      StepSafe(s.db, a.pid, s.procs[a.pid], a.choice);
    }
  }

  // ------------------------------------------------------------------ Ownership

  /** Every audit row carries the customer, organization, host app and actor that
      own the session of the item it is about. */
  lemma RowsCarrySessionOwner(run: seq<Action>, k: nat)
    requires k < |Exec(run).db.audit|
    ensures var db := Exec(run).db;
            var row := db.audit[k];
            && row.item in db.items && db.items[row.item].session in db.sessions
            && row.owner == db.sessions[db.items[row.item].session]
            && row.owner.actor == db.items[row.item].requester
            && row.owner.customer == db.items[row.item].customer
  {
    ExecSafe(run);
    var db := Exec(run).db;
    assert RowOwned(db.audit[k], db.items, db.sessions);
    assert ItemPlaced(db.items[db.audit[k].item], db.messages, db.sessions);
  }

  /** An approved or rejected request was decided by its own requester, and so was a
      resolved escalation. */
  lemma ApproverIsRequester(run: seq<Action>, ref: ItemRef)
    requires ref in Exec(run).db.items && Exec(run).db.items[ref].status in {Approved, Rejected, Resolved}
    ensures Exec(run).db.items[ref].decider == Some(Exec(run).db.items[ref].requester)
  {
    ExecSafe(run);
    assert RowWellFormed(ref.kind, Exec(run).db.items[ref]);
  }

  // --------------------------------------------------- One request run on its own

  /** Served on its own, a request is one particular interleaving. */
  lemma FinishIsRun(run: seq<Action>, pid: nat, c: Choice) returns (more: seq<Action>)
    requires pid in Exec(run).procs
    ensures EndsIn(run + more, pid, Finish(Exec(run).db, pid, Exec(run).procs[pid], c))
  {
    more := FinishFrom(run, pid, c, Exec(run).db, Exec(run).procs[pid]);
  }

  lemma RunEnds(run: seq<Action>, pid: nat, c: Choice, db: Db, p: Proc)
    requires EndsIn(run, pid, (db, p))
    ensures EndsIn(run + [Run(pid, c)], pid, Step(db, pid, p, c))
    ensures Exec(run + [Run(pid, c)]).procs.Keys == Exec(run).procs.Keys
  {
    ExecAppend(run, Run(pid, c));
  }

  lemma {:induction false} FinishFrom(run: seq<Action>, pid: nat, c: Choice, db: Db, p: Proc) returns (more: seq<Action>)
    requires EndsIn(run, pid, (db, p))
    ensures EndsIn(run + more, pid, Finish(db, pid, p, c))
    decreases Remaining(p.pc)
  {
    if p.pc.Done? {
      more := [];
      assert run + more == run;
    } else {
      var next := run + [Run(pid, c)];
      RunEnds(run, pid, c, db, p);
      var (db', p') := Step(db, pid, p, c);
      StepShrinks(db, pid, p, c);
      var rest := FinishFrom(next, pid, c, db', p');
      more := [Run(pid, c)] + rest;
      assert next + rest == run + more;
    }
  }

  ghost predicate EndsIn(run: seq<Action>, pid: nat, end: (Db, Proc)) {
    Exec(run).db == end.0 && pid in Exec(run).procs && Exec(run).procs[pid] == end.1
  }

  /** The caller may decide the item and every gate lets it through. */
  ghost predicate Admitted(db: Db, scope: Scope, r: Request, c: Choice) {
    && r.Decide? && Guarded(r.op) && Present(r.key)
    && Target(r) in db.items
    && OwnsSession(db, db.items[Target(r)].session, scope.owner)
    && (r.op == Approve ==> HasApprovalAuthority(scope))
    && c.gate == Pass
  }

  lemma AdmittedReachesLookup(db: Db, pid: nat, scope: Scope, r: Request, c: Choice)
    requires DbInv(db) && Admitted(db, scope, r, c)
    requires var item := db.items[Target(r)];
             if IsReplay(item) then item.key == r.key
             else item.status == InitialStatus(KindOf(r.op)) && !PastExpiry(item, c.now)
    ensures Serve(db, pid, scope, r, c) ==
            Finish(db, pid, Proc(scope, r, Lookup(db.items[Target(r)])), c)
  {
    var item := db.items[Target(r)];
    assert ItemPlaced(item, db.messages, db.sessions);
    assert RowWellFormed(Target(r).kind, item);
    assert StepStart(db, scope, r) == Loaded(item);
    assert StepLoaded(db, scope, r, item, c.now) == Parents(item);
    assert StepParents(db, scope, item) == ParentMessage(item);
    assert StepParentMessage(db, scope, r.key, item) == Gates(item);
    Unroll(db, pid, Proc(scope, r, Start), c, db, Loaded(item));
    Unroll(db, pid, Proc(scope, r, Loaded(item)), c, db, Parents(item));
    Unroll(db, pid, Proc(scope, r, Parents(item)), c, db, ParentMessage(item));
    Unroll(db, pid, Proc(scope, r, ParentMessage(item)), c, db, Gates(item));
    Unroll(db, pid, Proc(scope, r, Gates(item)), c, db, Lookup(item));
  }

  /** Repeating a decision with its own key, gates passing: one audit row, and no
      ToolCall, connector call or status change. */
  lemma RepeatWithSameKey(run: seq<Action>, pid: nat, scope: Scope, r: Request, c: Choice) returns (id: Id)
    requires Admitted(Exec(run).db, scope, r, c)
    requires var item := Exec(run).db.items[Target(r)]; IsReplay(item) && item.key == r.key
    ensures var db := Exec(run).db;
            Serve(db, pid, scope, r, c) ==
            (Append(db, SideEffectRow(SideEffectSkipped, scope, Target(r), db.items[Target(r)], Some(id))),
             Proc(scope, r, Done(Replayed)))
  {
    var db := Exec(run).db;
    ExecSafe(run);
    id := ExecutedIsBackedOnce(run, Target(r));
    var item := db.items[Target(r)];
    assert ItemPlaced(item, db.messages, db.sessions);
    AdmittedReachesLookup(db, pid, scope, r, c);
    var db' := Append(db, SideEffectRow(SideEffectSkipped, scope, Target(r), item, Some(id)));
    assert KeyTaken(db.toolCalls, scope.owner.customer, r.key.value);
    Unroll(db, pid, Proc(scope, r, Lookup(item)), c, db, Skip(item, id));
    Unroll(db, pid, Proc(scope, r, Skip(item, id)), c, db', Done(Replayed));
  }

  /** The load succeeds: the caller may decide at all, owns the item's row, finds its
      session and is allowed to see it. */
  predicate Sees(db: Db, scope: Scope, r: Request)
    requires r.Decide? && Target(r) in db.items
  {
    var kind, item := KindOf(r.op), db.items[Target(r)];
    && (r.op in {Approve, Reject} ==> HasApprovalAuthority(scope))
    && item.customer == scope.owner.customer
    && OwnsSession(db, item.session, scope.owner.(actor := SessionActor(scope, kind, item)))
    && VisibleToActor(scope, kind, item)
  }

  /** Repeating a decision with another key, or none, changes nothing; it is a conflict
      exactly for the callers whose load succeeds. */
  lemma RepeatWithOtherKey(run: seq<Action>, pid: nat, scope: Scope, r: Request, c: Choice)
    requires r.Decide? && Guarded(r.op) && Target(r) in Exec(run).db.items
    requires IsReplay(Exec(run).db.items[Target(r)]) && Exec(run).db.items[Target(r)].key != r.key
    ensures var db := Exec(run).db;
            var (db', p') := Serve(db, pid, scope, r, c);
            && db' == db && p'.pc.Done?
            && (p'.pc == Done(Conflict) <==> Sees(db, scope, r))
  {
    var db := Exec(run).db;
    ExecSafe(run);
    var item := db.items[Target(r)];
    assert ItemPlaced(item, db.messages, db.sessions);
    assert RowWellFormed(Target(r).kind, item);
    var first := StepStart(db, scope, r);
    Unroll(db, pid, Proc(scope, r, Start), c, db, first);
    if first.Loaded? {
      Unroll(db, pid, Proc(scope, r, first), c, db, StepLoaded(db, scope, r, item, c.now));
    }
  }

  /** A decision whose finalization was lost after its ToolCall was reserved is recovered
      by a retry with the same key: the item is decided, and neither a ToolCall nor a
      connector call is added. If the ToolCall had a result, its connector call is on
      record. */
  lemma RetryRecovers(run: seq<Action>, pid: nat, scope: Scope, r: Request, c: Choice, id: Id)
    requires Admitted(Exec(run).db, scope, r, c)
    requires var db := Exec(run).db;
             var item := db.items[Target(r)];
             && item.status == InitialStatus(KindOf(r.op)) && !PastExpiry(item, c.now)
             && HasKey(db.toolCalls, id, item.customer, r.key.value)
             && db.toolCalls[id].source == Some(Target(r))
    ensures var db := Exec(run).db;
            var (db', p') := Serve(db, pid, scope, r, c);
            && p'.pc == Done(Completed)
            && db'.calls == db.calls && db'.toolCalls == db.toolCalls
            && db'.items == db.items[Target(r) := DecidedItem(db, scope, r)]
            && (db.toolCalls[id].execution != InProgress ==> Called(db.calls, id))
  {
    ExecSafe(run);
    ResultsWereCalled(run);
    var db := Exec(run).db;
    var item := db.items[Target(r)];
    PlacedCustomer(db, Target(r));
    AdmittedReachesLookup(db, pid, scope, r, c);
    LookupSkips(db, pid, scope, r, c, id);
    var skipped := Append(db, SideEffectRow(SideEffectSkipped, scope, Target(r), item, Some(id)));
    CommitFinishes(db, skipped, pid, scope, r, c, id);
  }

  /** The item with the decision applied. */
  function DecidedItem(db: Db, scope: Scope, r: Request): (item: Item)
    requires r.Decide? && Target(r) in db.items
    ensures item.status == NewStatus(r.op)
    ensures Guarded(r.op) && r.key.Some? ==> item.key == r.key
  {
    Decided(r.op, scope.owner.actor, r.key, db.items[Target(r)], db.items[Target(r)])
  }

  lemma PlacedCustomer(db: Db, ref: ItemRef)
    requires DbInv(db) && ref in db.items
    ensures db.items[ref].session in db.sessions && db.sessions[db.items[ref].session].customer == db.items[ref].customer
  {
    assert ItemPlaced(db.items[ref], db.messages, db.sessions);
  }

  lemma LookupSkips(db: Db, pid: nat, scope: Scope, r: Request, c: Choice, id: Id)
    requires DbInv(db) && r.Decide? && r.key.Some? && Target(r) in db.items && !IsReplay(db.items[Target(r)])
    requires HasKey(db.toolCalls, id, scope.owner.customer, r.key.value) && db.toolCalls[id].source == Some(Target(r))
    ensures var item := db.items[Target(r)];
            Finish(db, pid, Proc(scope, r, Lookup(item)), c) ==
            Finish(Append(db, SideEffectRow(SideEffectSkipped, scope, Target(r), item, Some(id))), pid,
                  Proc(scope, r, Commit(item, Some(id))), c)
  {
    var item := db.items[Target(r)];
    assert CallBelongs(db.toolCalls[id], db.items);
    assert KeyTaken(db.toolCalls, scope.owner.customer, r.key.value);
    Unroll(db, pid, Proc(scope, r, Lookup(item)), c, db, Skip(item, id));
    var skipped := Append(db, SideEffectRow(SideEffectSkipped, scope, Target(r), item, Some(id)));
    Unroll(db, pid, Proc(scope, r, Skip(item, id)), c, skipped, Commit(item, Some(id)));
  }

  /** With the key's call created for this very item, the deciding transaction cannot
      fail: no other row holds the key and the audit context is the item's own. */
  lemma CommitGoesThrough(db: Db, now: Db, scope: Scope, r: Request, id: Id)
    requires DbInv(db) && r.Decide? && Guarded(r.op) && Present(r.key) && Target(r) in db.items
    requires now.items == db.items && now.sessions == db.sessions && now.messages == db.messages
    requires OwnsSession(db, db.items[Target(r)].session, scope.owner)
    requires UniqueKeys(now.toolCalls) && ToolCallsGrow(db.toolCalls, now.toolCalls)
    requires HasKey(now.toolCalls, id, scope.owner.customer, r.key.value) && now.toolCalls[id].source == Some(Target(r))
    ensures StepCommit(now, scope, r, db.items[Target(r)]).1 == Done(Completed)
    ensures StepCommit(now, scope, r, db.items[Target(r)]).0.items == db.items[Target(r) := DecidedItem(db, scope, r)]
  {
    var ref, item := Target(r), db.items[Target(r)];
    assert ItemPlaced(item, db.messages, db.sessions);
    forall other | other in db.items && other != ref && db.items[other].customer == item.customer && db.items[other].key.Some?
      ensures db.items[other].key != r.key
    {
      assert RowWellFormed(other.kind, db.items[other]);
      assert IsBacked(db.toolCalls, other, db.items[other]);
      var theirs :| Backs(db.toolCalls, theirs, other, db.items[other]);
      assert HasKey(now.toolCalls, theirs, item.customer, db.items[other].key.value);
    }
  }

  /** The tables after the guard has executed the tool of an item. */
  ghost function Executed(db: Db, pid: nat, scope: Scope, ref: ItemRef, key: string, item: Item, id: Id, ok: bool): Db {
    var row := ToolCall(scope.owner.customer, item.session, item.message, Some(key), Some(ref),
                        if ok then Succeeded else Unsuccessful, pid);
    Append(db.(toolCalls := db.toolCalls[id := row],
               calls := db.calls + [ConnectorCall(scope.owner.customer, key, id, ref)]),
           SideEffectRow(if ok then SideEffectExecuted else SideEffectFailed, scope, ref, item, Some(id)))
  }

  lemma LookupExecutes(db: Db, pid: nat, scope: Scope, r: Request, item: Item, c: Choice)
    requires r.Decide? && r.key.Some? && !IsReplay(item)
    requires !KeyTaken(db.toolCalls, scope.owner.customer, r.key.value) && c.newId !in db.toolCalls
    ensures Finish(db, pid, Proc(scope, r, Lookup(item)), c) ==
            Finish(Executed(db, pid, scope, Target(r), r.key.value, item, c.newId, c.ok), pid,
                  Proc(scope, r, Commit(item, Some(c.newId))), c)
  {
    var ref, id := Target(r), c.newId;
    Unroll(db, pid, Proc(scope, r, Lookup(item)), c, db, Create(item));
    var created := StepCreate(db, pid, scope, ref, r.key.value, item, id).0;
    Unroll(db, pid, Proc(scope, r, Create(item)), c, created, Call(item, id));
    var called := StepCall(created, scope, ref, r.key.value, item, id, c.ok).0;
    Unroll(created, pid, Proc(scope, r, Call(item, id)), c, called, Update(item, id, c.ok));
    var updated := StepUpdate(called, scope, item, id, c.ok).0;
    Unroll(called, pid, Proc(scope, r, Update(item, id, c.ok)), c, updated, Record(item, id, c.ok));
    var recorded := Executed(db, pid, scope, ref, r.key.value, item, id, c.ok);
    assert updated.toolCalls == recorded.toolCalls;
    Unroll(updated, pid, Proc(scope, r, Record(item, id, c.ok)), c, recorded, Commit(item, Some(id)));
  }

  /** A first decision with an unused key: one ToolCall, one connector call for it, and
      the item is decided whether or not the connector succeeded. */
  lemma FirstDecision(run: seq<Action>, pid: nat, scope: Scope, r: Request, c: Choice)
    requires Admitted(Exec(run).db, scope, r, c)
    requires var db := Exec(run).db;
             var item := db.items[Target(r)];
             && item.status == InitialStatus(KindOf(r.op)) && !PastExpiry(item, c.now)
             && !KeyTaken(db.toolCalls, item.customer, r.key.value) && c.newId !in db.toolCalls
    ensures var db := Exec(run).db;
            var (db', p') := Serve(db, pid, scope, r, c);
            && p'.pc == Done(Completed)
            && db'.calls == db.calls + [ConnectorCall(scope.owner.customer, r.key.value, c.newId, Target(r))]
            && db'.toolCalls.Keys == db.toolCalls.Keys + {c.newId}
            && db'.toolCalls[c.newId].execution == (if c.ok then Succeeded else Unsuccessful)
            && db'.items == db.items[Target(r) := DecidedItem(db, scope, r)]
  {
    ExecSafe(run);
    var db := Exec(run).db;
    var item, id := db.items[Target(r)], c.newId;
    PlacedCustomer(db, Target(r));
    AdmittedReachesLookup(db, pid, scope, r, c);
    LookupExecutes(db, pid, scope, r, item, c);
    var recorded := Executed(db, pid, scope, Target(r), r.key.value, item, id, c.ok);
    FreshKeyUnique(db.toolCalls, recorded.toolCalls, id, scope.owner.customer, r.key.value);
    CommitFinishes(db, recorded, pid, scope, r, c, id);
  }

  lemma CommitFinishes(db: Db, now: Db, pid: nat, scope: Scope, r: Request, c: Choice, id: Id)
    requires DbInv(db) && r.Decide? && Guarded(r.op) && Present(r.key) && Target(r) in db.items
    requires now.items == db.items && now.sessions == db.sessions && now.messages == db.messages
    requires OwnsSession(db, db.items[Target(r)].session, scope.owner)
    requires UniqueKeys(now.toolCalls) && ToolCallsGrow(db.toolCalls, now.toolCalls)
    requires HasKey(now.toolCalls, id, scope.owner.customer, r.key.value) && now.toolCalls[id].source == Some(Target(r))
    ensures var (db', p') := Finish(now, pid, Proc(scope, r, Commit(db.items[Target(r)], Some(id))), c);
            && p'.pc == Done(Completed)
            && db'.items == db.items[Target(r) := DecidedItem(db, scope, r)]
            && db'.calls == now.calls && db'.toolCalls == now.toolCalls
  {
    CommitGoesThrough(db, now, scope, r, id);
    var item := db.items[Target(r)];
    var (committed, _) := StepCommit(now, scope, r, item);
    Unroll(now, pid, Proc(scope, r, Commit(item, Some(id))), c, committed, Done(Completed));
  }

  lemma FreshKeyUnique(before: map<Id, ToolCall>, after: map<Id, ToolCall>, id: Id, customer: Id, key: string)
    requires UniqueKeys(before) && id !in before && !KeyTaken(before, customer, key)
    requires after.Keys == before.Keys + {id} && HasKey(after, id, customer, key)
    requires forall other :: other in before ==> after[other] == before[other]
    ensures UniqueKeys(after) && ToolCallsGrow(before, after)
  {
    assert forall i, c, k :: HasKey(after, i, c, k) && i != id ==> HasKey(before, i, c, k);
  }

  // ------------------------------------------------- Results and connector calls

  predicate Called(calls: seq<ConnectorCall>, id: Id) {
    exists k :: 0 <= k < |calls| && calls[k].toolCall == id
  }

  /** A keyed ToolCall with a result has its connector call on record. */
  ghost predicate ResultsCalled(db: Db) {
    forall id :: id in db.toolCalls && db.toolCalls[id].key.Some? && db.toolCalls[id].execution != InProgress ==>
      Called(db.calls, id)
  }

  predicate HasCalled(db: Db, pc: Pc) {
    pc.Update? ==> Called(db.calls, pc.toolCall)
  }

  lemma CalledGrows(calls: seq<ConnectorCall>, more: seq<ConnectorCall>, id: Id)
    requires Called(calls, id) && |calls| <= |more| && more[..|calls|] == calls
    ensures Called(more, id)
  {
    var k :| 0 <= k < |calls| && calls[k].toolCall == id;
    assert more[k] == calls[k];
  }

  /** A step logs no call, or it is the connector's step and logs that of its ToolCall. */
  lemma StepLogs(db: Db, pid: nat, p: Proc, c: Choice)
    ensures var calls, after := db.calls, Step(db, pid, p, c).0.calls;
            after == calls || (p.pc.Call? && |after| == |calls| + 1 && after[..|calls|] == calls
                               && after[|calls|].toolCall == p.pc.toolCall)
  {
  }

  lemma StepEntersUpdate(db: Db, pid: nat, p: Proc, c: Choice)
    requires Step(db, pid, p, c).1.pc.Update?
    ensures p.pc.Call? && Step(db, pid, p, c).1.pc.toolCall == p.pc.toolCall
    ensures |Step(db, pid, p, c).0.calls| > |db.calls|
  {
  }

  /** Only the step after the connector's gives a ToolCall its result. */
  lemma StepResults(db: Db, pid: nat, p: Proc, c: Choice, id: Id)
    requires id in Step(db, pid, p, c).0.toolCalls && Step(db, pid, p, c).0.toolCalls[id].key.Some?
    requires Step(db, pid, p, c).0.toolCalls[id].execution != InProgress
    ensures || (p.pc.Update? && p.pc.toolCall == id)
            || (id in db.toolCalls && db.toolCalls[id] == Step(db, pid, p, c).0.toolCalls[id])
  {
  }

  lemma ResultsStep(db: Db, pid: nat, p: Proc, c: Choice)
    requires ResultsCalled(db) && HasCalled(db, p.pc)
    ensures ResultsCalled(Step(db, pid, p, c).0)
  {
    var after := Step(db, pid, p, c).0;
    StepLogs(db, pid, p, c);
    forall id | id in after.toolCalls && after.toolCalls[id].key.Some? && after.toolCalls[id].execution != InProgress
      ensures Called(after.calls, id)
    {
      StepResults(db, pid, p, c, id);
      CalledGrows(db.calls, after.calls, id);
    }
  }

  lemma CalledStep(db: Db, pid: nat, p: Proc, c: Choice)
    ensures HasCalled(Step(db, pid, p, c).0, Step(db, pid, p, c).1.pc)
  {
    if Step(db, pid, p, c).1.pc.Update? {
      StepLogs(db, pid, p, c);
      StepEntersUpdate(db, pid, p, c);
    }
  }

  lemma {:induction false} ResultsWereCalled(run: seq<Action>)
    ensures ResultsCalled(Exec(run).db)
    ensures forall pid :: pid in Exec(run).procs ==> HasCalled(Exec(run).db, Exec(run).procs[pid].pc)
  {
    if |run| > 0 {
      var s, a := Exec(run[..|run| - 1]), run[|run| - 1];
      ResultsWereCalled(run[..|run| - 1]);
      if a.Run? && a.pid in s.procs {
        ResultsStep(s.db, a.pid, s.procs[a.pid], a.choice);
        CalledStep(s.db, a.pid, s.procs[a.pid], a.choice);
        OthersHaveCalled(s, a.pid, a.choice);
      }
    }
  }

  lemma OthersHaveCalled(s: System, actor: nat, c: Choice)
    requires actor in s.procs && forall pid :: pid in s.procs ==> HasCalled(s.db, s.procs[pid].pc)
    ensures forall pid :: pid in s.procs && pid != actor ==> HasCalled(Step(s.db, actor, s.procs[actor], c).0, s.procs[pid].pc)
  {
    var after := Step(s.db, actor, s.procs[actor], c).0;
    StepLogs(s.db, actor, s.procs[actor], c);
    forall pid | pid in s.procs && pid != actor && s.procs[pid].pc.Update?
      ensures Called(after.calls, s.procs[pid].pc.toolCall)
    {
      CalledGrows(s.db.calls, after.calls, s.procs[pid].pc.toolCall);
    }
  }

  /** The process has reserved the key of this ToolCall and not taken its connector step. */
  predicate BeforeCall(s: System, pid: nat, id: Id) {
    && pid in s.procs && s.procs[pid].request.Decide? && s.procs[pid].request.key.Some?
    && s.procs[pid].pc.Call? && s.procs[pid].pc.toolCall == id
  }

  /** Of every keyed ToolCall that was not sent, the creator stands before the sending. */
  ghost predicate UnsentStand(s: System) {
    forall id :: id in s.db.toolCalls && s.db.toolCalls[id].key.Some? && !Called(s.db.calls, id) ==>
      BeforeCall(s, s.db.toolCalls[id].creator, id)
  }

  lemma StepReserves(db: Db, pid: nat, p: Proc, c: Choice, id: Id)
    requires id !in db.toolCalls && id in Step(db, pid, p, c).0.toolCalls
    ensures var p' := Step(db, pid, p, c).1;
            && p'.request == p.request && p.request.Decide? && p.request.key.Some?
            && p'.pc.Call? && p'.pc.toolCall == id
            && Step(db, pid, p, c).0.toolCalls[id].creator == pid
  {
  }

  lemma StepKeepsCalls(db: Db, pid: nat, p: Proc, c: Choice)
    ensures ToolCallsGrow(db.toolCalls, Step(db, pid, p, c).0.toolCalls)
  {
  }

  lemma StepSends(db: Db, pid: nat, p: Proc, c: Choice)
    requires p.request.Decide? && p.request.key.Some? && p.pc.Call?
    ensures Called(Step(db, pid, p, c).0.calls, p.pc.toolCall)
  {
    assert Step(db, pid, p, c).0.calls[|db.calls|].toolCall == p.pc.toolCall;
  }

  lemma UnsentStep(s: System, pid: nat, c: Choice)
    requires UnsentStand(s) && pid in s.procs
    ensures UnsentStand(Apply(s, Run(pid, c)))
  {
    var p, s' := s.procs[pid], Apply(s, Run(pid, c));
    StepKeepsCalls(s.db, pid, p, c);
    StepLogs(s.db, pid, p, c);
    forall id | id in s'.db.toolCalls && s'.db.toolCalls[id].key.Some? && !Called(s'.db.calls, id)
      ensures BeforeCall(s', s'.db.toolCalls[id].creator, id)
    {
      if id !in s.db.toolCalls {
        StepReserves(s.db, pid, p, c, id);
      } else {
        StillUnsent(s.db, pid, p, c, id);
        assert s'.db.toolCalls[id] == s.db.toolCalls[id].(execution := s'.db.toolCalls[id].execution);
        if s.db.toolCalls[id].creator == pid {
          StepSends(s.db, pid, p, c);
        }
      }
    }
  }

  lemma StillUnsent(db: Db, pid: nat, p: Proc, c: Choice, id: Id)
    requires !Called(Step(db, pid, p, c).0.calls, id)
    ensures !Called(db.calls, id)
  {
    StepLogs(db, pid, p, c);
    if Called(db.calls, id) {
      CalledGrows(db.calls, Step(db, pid, p, c).0.calls, id);
    }
  }

  lemma {:induction false} UnsentAlwaysStand(run: seq<Action>)
    ensures UnsentStand(Exec(run))
  {
    if |run| > 0 {
      var s, a := Exec(run[..|run| - 1]), run[|run| - 1];
      UnsentAlwaysStand(run[..|run| - 1]);
      if a.Run? && a.pid in s.procs {
        UnsentStep(s, a.pid, a.choice);
      }
    }
  }

  /** A keyed ToolCall was never sent to the connector exactly when the process that
      created it still stands, crashed or not, before its connector step; no other process
      ever does. */
  lemma NeverSentIff(run: seq<Action>, id: Id)
    requires id in Exec(run).db.toolCalls && Exec(run).db.toolCalls[id].key.Some?
    ensures !Called(Exec(run).db.calls, id) <==> BeforeCall(Exec(run), Exec(run).db.toolCalls[id].creator, id)
    ensures forall pid :: BeforeCall(Exec(run), pid, id) ==> pid == Exec(run).db.toolCalls[id].creator
  {
    UnsentAlwaysStand(run);
    ExecSafe(run);
    var s := Exec(run);
    forall pid | BeforeCall(s, pid, id)
      ensures pid == s.db.toolCalls[id].creator && !Called(s.db.calls, id)
    {
      assert ProcInv(s.db, pid, s.procs[pid]);
    }
  }

  /** So an executed or approved item was decided without a connector call exactly when the
      creator of the one ToolCall that holds its key still stands before its step. */
  lemma DecidedUnsentIff(run: seq<Action>, ref: ItemRef) returns (id: Id)
    requires ref in Exec(run).db.items && IsReplay(Exec(run).db.items[ref])
    ensures var s := Exec(run);
            var item := s.db.items[ref];
            && item.key.Some? && HasKey(s.db.toolCalls, id, item.customer, item.key.value)
            && s.db.toolCalls[id].source == Some(ref)
            && (!(exists k :: 0 <= k < |s.db.calls| && s.db.calls[k].item == ref && Some(s.db.calls[k].key) == item.key)
                <==> BeforeCall(s, s.db.toolCalls[id].creator, id))
  {
    id := ExecutedIsBackedOnce(run, ref);
    NeverSentIff(run, id);
    ExecSafe(run);
    var s := Exec(run);
    if Called(s.db.calls, id) {
      var k :| 0 <= k < |s.db.calls| && s.db.calls[k].toolCall == id;
      assert CallLogged(s.db.calls[k], s.db.toolCalls);
    }
    forall k | 0 <= k < |s.db.calls| && s.db.calls[k].item == ref && Some(s.db.calls[k].key) == s.db.items[ref].key
      ensures s.db.calls[k].toolCall == id
    {
      assert CallLogged(s.db.calls[k], s.db.toolCalls);
      assert CallBelongs(s.db.toolCalls[s.db.calls[k].toolCall], s.db.items);
    }
  }

  /** The item is undecided, in time, and the key and the next id are free. */
  ghost predicate FreshDecision(db: Db, r: Request, c: Choice)
    requires r.Decide? && r.key.Some? && Target(r) in db.items
  {
    var item := db.items[Target(r)];
    && item.status == InitialStatus(KindOf(r.op)) && !PastExpiry(item, c.now)
    && !KeyTaken(db.toolCalls, item.customer, r.key.value) && c.newId !in db.toolCalls
  }

  predicate BeforeLookup(pc: Pc, item: Item) {
    pc == Start || pc == Loaded(item) || pc == Parents(item) || pc == ParentMessage(item) || pc == Gates(item)
  }

  /** What follows each step of an admitted first decision before its lookup. */
  function NextRead(pc: Pc, item: Item): Pc {
    match pc
    case Start => Loaded(item)
    case Loaded(_) => Parents(item)
    case Parents(_) => ParentMessage(item)
    case ParentMessage(_) => Gates(item)
    case _ => Lookup(item)
  }

  lemma AdmittedStep(db: Db, pid: nat, scope: Scope, r: Request, c: Choice, pc: Pc)
    requires DbInv(db) && Admitted(db, scope, r, c) && FreshDecision(db, r, c)
    requires BeforeLookup(pc, db.items[Target(r)])
    ensures Step(db, pid, Proc(scope, r, pc), c) == (db, Proc(scope, r, NextRead(pc, db.items[Target(r)])))
  {
    var item := db.items[Target(r)];
    assert ItemPlaced(item, db.messages, db.sessions);
    assert RowWellFormed(Target(r).kind, item);
  }

  lemma {:induction false} RunsToLookup(run: seq<Action>, db: Db, pid: nat, scope: Scope, r: Request, c: Choice, pc: Pc)
    returns (more: seq<Action>)
    requires DbInv(db) && Admitted(db, scope, r, c) && FreshDecision(db, r, c)
    requires BeforeLookup(pc, db.items[Target(r)]) && EndsIn(run, pid, (db, Proc(scope, r, pc)))
    ensures EndsIn(run + more, pid, (db, Proc(scope, r, Lookup(db.items[Target(r)]))))
    ensures Exec(run + more).procs.Keys == Exec(run).procs.Keys
    decreases Remaining(pc)
  {
    var step, next := Run(pid, c), NextRead(pc, db.items[Target(r)]);
    AdmittedStep(db, pid, scope, r, c, pc);
    RunEnds(run, pid, c, db, Proc(scope, r, pc));
    more := [step];
    if !next.Lookup? {
      var rest := RunsToLookup(run + [step], db, pid, scope, r, c, next);
      assert run + [step] + rest == run + ([step] + rest);
      more := [step] + rest;
    }
  }

  ghost function Reserved(db: Db, pid: nat, scope: Scope, r: Request, c: Choice): Db
    requires r.Decide? && r.key.Some? && Target(r) in db.items
  {
    StepCreate(db, pid, scope, Target(r), r.key.value, db.items[Target(r)], c.newId).0
  }

  /** The item is undecided, in time, and its key is held by a ToolCall of its own. */
  ghost predicate Recoverable(db: Db, scope: Scope, r: Request, c: Choice, id: Id) {
    && Admitted(db, scope, r, c)
    && var item := db.items[Target(r)];
    && item.status == InitialStatus(KindOf(r.op)) && !PastExpiry(item, c.now)
    && HasKey(db.toolCalls, id, item.customer, r.key.value) && db.toolCalls[id].source == Some(Target(r))
  }

  /** The tables with the key reserved: a ToolCall in progress that was never called. */
  lemma KeyReserved(db: Db, pid: nat, scope: Scope, r: Request, c: Choice)
    requires DbInv(db) && Admitted(db, scope, r, c) && FreshDecision(db, r, c)
    ensures var created := Reserved(db, pid, scope, r, c);
            && Recoverable(created, scope, r, c, c.newId)
            && created.items == db.items && DecidedItem(created, scope, r) == DecidedItem(db, scope, r)
            && created.calls == db.calls && !Called(created.calls, c.newId)
            && HasKey(created.toolCalls, c.newId, scope.owner.customer, r.key.value)
            && created.toolCalls[c.newId].execution == InProgress
  {
    PlacedCustomer(db, Target(r));
    assert forall k :: 0 <= k < |db.calls| ==> CallLogged(db.calls[k], db.toolCalls);
  }

  lemma ReserveSteps(db: Db, pid: nat, scope: Scope, r: Request, c: Choice)
    requires DbInv(db) && Admitted(db, scope, r, c) && FreshDecision(db, r, c)
    ensures var item := db.items[Target(r)];
            && Step(db, pid, Proc(scope, r, Lookup(item)), c) == (db, Proc(scope, r, Create(item)))
            && Step(db, pid, Proc(scope, r, Create(item)), c)
               == (Reserved(db, pid, scope, r, c), Proc(scope, r, Call(item, c.newId)))
  {
    PlacedCustomer(db, Target(r));
  }

  /** The steps of a first decision up to the reserved key. */
  lemma ReservesKey(run: seq<Action>, db: Db, pid: nat, scope: Scope, r: Request, c: Choice) returns (more: seq<Action>)
    requires DbInv(db) && Admitted(db, scope, r, c) && FreshDecision(db, r, c)
    requires EndsIn(run, pid, (db, Proc(scope, r, Start)))
    ensures EndsIn(run + more, pid, (Reserved(db, pid, scope, r, c), Proc(scope, r, Call(db.items[Target(r)], c.newId))))
    ensures Exec(run + more).procs.Keys == Exec(run).procs.Keys
  {
    var item, step := db.items[Target(r)], Run(pid, c);
    more := RunsToLookup(run, db, pid, scope, r, c, Start);
    ReserveSteps(db, pid, scope, r, c);
    RunEnds(run + more, pid, c, db, Proc(scope, r, Lookup(item)));
    RunEnds(run + more + [step], pid, c, db, Proc(scope, r, Create(item)));
    assert run + (more + [step, step]) == run + more + [step] + [step];
    more := more + [step, step];
  }

  lemma Arrives(run: seq<Action>, pid: nat, scope: Scope, r: Request)
    requires pid !in Exec(run).procs
    ensures EndsIn(run + [Arrive(pid, scope, r)], pid, (Exec(run).db, Proc(scope, r, Start)))
    ensures Exec(run + [Arrive(pid, scope, r)]).procs.Keys == Exec(run).procs.Keys + {pid}
  {
    ExecAppend(run, Arrive(pid, scope, r));
  }

  lemma RetryRun(run: seq<Action>, db: Db, pid: nat, scope: Scope, r: Request, c: Choice, id: Id) returns (more: seq<Action>)
    requires EndsIn(run, pid, (db, Proc(scope, r, Start))) && Recoverable(db, scope, r, c, id)
    ensures var db' := Exec(run + more).db;
            && db'.items == db.items[Target(r) := DecidedItem(db, scope, r)]
            && db'.calls == db.calls && db'.toolCalls == db.toolCalls
  {
    RetryRecovers(run, pid, scope, r, c, id);
    more := FinishIsRun(run, pid, c);
  }

  /** A new request up to its connector step. */
  lemma ReachesCall(run: seq<Action>, db: Db, pid: nat, scope: Scope, r: Request, c: Choice) returns (more: seq<Action>)
    requires Exec(run).db == db && DbInv(db) && Admitted(db, scope, r, c) && FreshDecision(db, r, c)
    requires pid !in Exec(run).procs
    ensures EndsIn(run + more, pid, (Reserved(db, pid, scope, r, c), Proc(scope, r, Call(db.items[Target(r)], c.newId))))
    ensures Exec(run + more).procs.Keys == Exec(run).procs.Keys + {pid}
  {
    Arrives(run, pid, scope, r);
    var rest := ReservesKey(run + [Arrive(pid, scope, r)], db, pid, scope, r, c);
    more := [Arrive(pid, scope, r)] + rest;
    assert run + more == run + [Arrive(pid, scope, r)] + rest;
  }

  /** A request that crashes between reserving its key and calling the connector leaves a
      ToolCall in progress; the retry takes it for a duplicate and decides the item
      although the connector was never called. */
  lemma CrashBeforeCall(run: seq<Action>, pid: nat, retry: nat, scope: Scope, r: Request, c: Choice)
    returns (more: seq<Action>)
    requires Admitted(Exec(run).db, scope, r, c) && FreshDecision(Exec(run).db, r, c)
    requires pid !in Exec(run).procs && retry !in Exec(run).procs && pid != retry
    ensures var db, db' := Exec(run).db, Exec(run + more).db;
            && db'.items == db.items[Target(r) := DecidedItem(db, scope, r)]
            && db'.calls == db.calls && !Called(db'.calls, c.newId)
            && HasKey(db'.toolCalls, c.newId, scope.owner.customer, r.key.value)
            && db'.toolCalls[c.newId].execution == InProgress
  {
    ExecSafe(run);
    more := CrashAndRetry(run, Exec(run).db, pid, retry, scope, r, c);
  }

  lemma CrashAndRetry(run: seq<Action>, db: Db, pid: nat, retry: nat, scope: Scope, r: Request, c: Choice)
    returns (more: seq<Action>)
    requires Exec(run).db == db && DbInv(db) && Admitted(db, scope, r, c) && FreshDecision(db, r, c)
    requires pid !in Exec(run).procs && retry !in Exec(run).procs && pid != retry
    ensures var db' := Exec(run + more).db;
            && db'.items == db.items[Target(r) := DecidedItem(db, scope, r)]
            && db'.calls == db.calls && !Called(db'.calls, c.newId)
            && HasKey(db'.toolCalls, c.newId, scope.owner.customer, r.key.value)
            && db'.toolCalls[c.newId].execution == InProgress
  {
    var crashed := ReachesCall(run, db, pid, scope, r, c);
    KeyReserved(db, pid, scope, r, c);
    var rest := RetryArrives(run + crashed, Reserved(db, pid, scope, r, c), retry, scope, r, c, c.newId);
    more := crashed + rest;
    assert run + more == run + crashed + rest;
  }

  lemma RetryArrives(run: seq<Action>, db: Db, pid: nat, scope: Scope, r: Request, c: Choice, id: Id)
    returns (more: seq<Action>)
    requires Exec(run).db == db && pid !in Exec(run).procs && Recoverable(db, scope, r, c, id)
    ensures var db' := Exec(run + more).db;
            && db'.items == db.items[Target(r) := DecidedItem(db, scope, r)]
            && db'.calls == db.calls && db'.toolCalls == db.toolCalls
  {
    Arrives(run, pid, scope, r);
    var rest := RetryRun(run + [Arrive(pid, scope, r)], db, pid, scope, r, c, id);
    more := [Arrive(pid, scope, r)] + rest;
    assert run + more == run + [Arrive(pid, scope, r)] + rest;
  }

  /** The connector's step changes the call log alone. */
  lemma SendOnly(db: Db, pid: nat, p: Proc, c: Choice)
    requires p.request.Decide? && p.request.key.Some? && p.pc.Call?
    ensures Step(db, pid, p, c).0 == db.(calls := Step(db, pid, p, c).0.calls)
    ensures Called(Step(db, pid, p, c).0.calls, p.pc.toolCall)
  {
    StepSends(db, pid, p, c);
  }

  /** The tables alone cannot tell: two runs leave the same rows, the ToolCall in progress
      in both, and only one of them has sent it. They stop before and after the connector's
      step. */
  lemma RowCannotTell(run: seq<Action>, pid: nat, scope: Scope, r: Request, c: Choice)
    returns (unsent: seq<Action>, sent: seq<Action>)
    requires Admitted(Exec(run).db, scope, r, c) && FreshDecision(Exec(run).db, r, c) && pid !in Exec(run).procs
    ensures var before, after := Exec(run + unsent).db, Exec(run + sent).db;
            && after == before.(calls := after.calls)
            && HasKey(after.toolCalls, c.newId, scope.owner.customer, r.key.value)
            && after.toolCalls[c.newId].execution == InProgress
            && !Called(before.calls, c.newId) && Called(after.calls, c.newId)
  {
    ExecSafe(run);
    unsent := ReachesCall(run, Exec(run).db, pid, scope, r, c);
    KeyReserved(Exec(run).db, pid, scope, r, c);
    sent := SendsNext(run + unsent, Exec(run + unsent).db, pid, Exec(run + unsent).procs[pid], c);
    assert run + (unsent + sent) == run + unsent + sent;
    sent := unsent + sent;
  }

  lemma SendsNext(run: seq<Action>, db: Db, pid: nat, p: Proc, c: Choice) returns (more: seq<Action>)
    requires EndsIn(run, pid, (db, p)) && p.request.Decide? && p.request.key.Some? && p.pc.Call?
    ensures Exec(run + more).db == db.(calls := Exec(run + more).db.calls)
    ensures Called(Exec(run + more).db.calls, p.pc.toolCall)
  {
    more := [Run(pid, c)];
    RunEnds(run, pid, c, db, p);
    SendOnly(db, pid, p, c);
  }
}
