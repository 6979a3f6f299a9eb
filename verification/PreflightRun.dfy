/** The preflight as it runs: loops over shared counters, sets and multimaps. */
module PreflightRun {
  import opened Prelude
  import opened Json
  import opened Collecting
  import opened Preflight

  /** The counters and the reasons as one value. */
  datatype Totals = Totals(
    unmapped: nat, ambiguous: nat, invalidCustomer: nat, invalidPolicy: nat, relation: nat, uniqueness: nat,
    reasons: set<Reason>)

  const ZERO := Totals(0, 0, 0, 0, 0, 0, {})

  function Add(t: Totals, f: Finding): Totals {
    var u := t.(reasons := t.reasons + {f.reason});
    match f.counter
    case Unmapped => u.(unmapped := u.unmapped + 1)
    case Ambiguous => u.(ambiguous := u.ambiguous + 1)
    case InvalidCustomer => u.(invalidCustomer := u.invalidCustomer + 1)
    case InvalidPolicy => u.(invalidPolicy := u.invalidPolicy + 1)
    case RelationConflict => u.(relation := u.relation + 1)
    case UniquenessConflict => u.(uniqueness := u.uniqueness + 1)
  }

  function AddOne(t: Totals, o: Option<Finding>): Totals {
    if o.Some? then Add(t, o.value) else t
  }

  function AddAll(t: Totals, log: seq<Finding>): Totals {
    if log == [] then t else Add(AddAll(t, log[..|log| - 1]), log[|log| - 1])
  }

  lemma AddAllNext(t: Totals, log: seq<Finding>, o: Option<Finding>)
    ensures AddAll(t, log + OneOf(o)) == AddOne(AddAll(t, log), o)
  {
    if o.Some? {
      assert (log + [o.value])[..|log|] == log;
    } else {
      assert log + OneOf(o) == log;
    }
  }

  lemma {:induction false} AddAllConcat(t: Totals, a: seq<Finding>, b: seq<Finding>)
    ensures AddAll(t, a + b) == AddAll(AddAll(t, a), b)
  {
    if b == [] {
      assert a + b == a;
    } else {
      var init, last := b[..|b| - 1], b[|b| - 1];
      AddAllConcat(t, a, init);
      assert (a + b)[..|a + b| - 1] == a + init && (a + b)[|a + b| - 1] == last;
    }
  }

  /** The same finding `n` times. */
  function AddMany(t: Totals, f: Finding, n: nat): Totals {
    if n == 0 then t else Add(AddMany(t, f, n - 1), f)
  }

  lemma {:induction false} AddManySum(t: Totals, f: Finding, m: nat, n: nat)
    ensures AddMany(AddMany(t, f, m), f, n) == AddMany(t, f, m + n)
  {
    if n > 0 {
      AddManySum(t, f, m, n - 1);
    }
  }

  lemma {:induction false} AddAllRepeat(t: Totals, f: Finding, n: nat)
    ensures AddAll(t, Repeat(f, n)) == AddMany(t, f, n)
  {
    if n > 0 {
      AddAllRepeat(t, f, n - 1);
      AddAllNext(t, Repeat(f, n - 1), Some(f));
    }
  }

  /** The totals of a log are its counts and its reasons. */
  lemma {:induction false} TotalsCount(log: seq<Finding>)
    ensures AddAll(ZERO, log) == Totals(Count(log, Unmapped), Count(log, Ambiguous), Count(log, InvalidCustomer),
                                        Count(log, InvalidPolicy), Count(log, RelationConflict),
                                        Count(log, UniquenessConflict), Reasons(log))
  {
    if log != [] {
      TotalsCount(log[..|log| - 1]);
      ReasonsNext(log[..|log| - 1], log[|log| - 1]);
      assert log == log[..|log| - 1] + [log[|log| - 1]];
    }
  }

  lemma ReasonsNext(log: seq<Finding>, f: Finding)
    ensures Reasons(log + [f]) == Reasons(log) + {f.reason}
  {
    var more := log + [f];
    assert forall g :: g in more <==> g in log || g == f;
    assert f in more;
    assert forall r :: r in Reasons(log) ==> r in Reasons(more);
  }

  function EntriesAt(byTarget: map<string, seq<Value>>, key: string): seq<Value> {
    if key in byTarget then byTarget[key] else []
  }

  /** The map holds what was accepted for every key. */
  ghost predicate Indexes(byTarget: map<string, seq<Value>>, mappings: seq<Value>, retained: set<string>) {
    forall key :: Entries(mappings, retained, key) == EntriesAt(byTarget, key)
  }

  /** The map counts how often each group was seen. */
  ghost predicate Counts(groups: map<string, nat>, seen: seq<string>) {
    && (forall g :: g in groups <==> g in seen)
    && forall g :: g in groups ==> groups[g] == multiset(seen)[g]
  }

  /** The counters and reasons of a run. */
  class Tally {
    var unmappedRows: nat
    var ambiguousRows: nat
    var invalidCustomerRows: nat
    var invalidPolicyRows: nat
    var relationConflicts: nat
    var uniquenessConflicts: nat
    var mappedRows: nat
    var reasons: set<Reason>

    function Now(): Totals
      reads this
    {
      Totals(unmappedRows, ambiguousRows, invalidCustomerRows, invalidPolicyRows, relationConflicts,
             uniquenessConflicts, reasons)
    }

    constructor ()
      ensures Now() == ZERO && mappedRows == 0
    {
      unmappedRows, ambiguousRows, invalidCustomerRows, invalidPolicyRows := 0, 0, 0, 0;
      relationConflicts, uniquenessConflicts, mappedRows := 0, 0, 0;
      reasons := {};
    }

    /** Adds one to a counter and gives the reason. */
    method Record(counter: Counter, reason: Reason)
      modifies this
      ensures Now() == Add(old(Now()), Finding(counter, reason)) && mappedRows == old(mappedRows)
    {
      match counter {
        case Unmapped => unmappedRows := unmappedRows + 1;
        case Ambiguous => ambiguousRows := ambiguousRows + 1;
        case InvalidCustomer => invalidCustomerRows := invalidCustomerRows + 1;
        case InvalidPolicy => invalidPolicyRows := invalidPolicyRows + 1;
        case RelationConflict => relationConflicts := relationConflicts + 1;
        case UniquenessConflict => uniquenessConflicts := uniquenessConflicts + 1;
      }
      reasons := reasons + {reason};
    }

    method ValidateCustomerRoots(values: seq<Value>) returns (roots: set<string>)
      modifies this
      ensures Now() == AddAll(old(Now()), RootLog(values)) && mappedRows == old(mappedRows)
      ensures roots == RootSet(values)
    {
      roots := {};
      for i := 0 to |values|
        invariant mappedRows == old(mappedRows)
        invariant roots == RootSet(values[..i])
        invariant Now() == AddAll(old(Now()), RootLog(values[..i]))
      {
        RootNext(values, i);
        AddAllNext(old(Now()), RootLog(values[..i]), Some(ROOT_FINDING));
        var name := RootName(values[i]);
        if name.None? || name.value in roots {
          Record(InvalidCustomer, InvalidPreflightInput);
        } else {
          roots := roots + {name.value};
        }
      }
      assert values[..|values|] == values;
    }

    method ValidateMappingEntries(values: seq<Value>, retained: set<string>) returns (byTarget: map<string, seq<Value>>)
      modifies this
      ensures Now() == AddAll(old(Now()), Collect(values, EntryJudge(retained))) && mappedRows == old(mappedRows)
      ensures Indexes(byTarget, values, retained)
    {
      byTarget := map[];
      for i := 0 to |values|
        invariant mappedRows == old(mappedRows)
        invariant Now() == AddAll(old(Now()), Collect(values[..i], EntryJudge(retained)))
        invariant Indexes(byTarget, values[..i], retained)
      {
        CollectNext(values, i, EntryJudge(retained));
        AddAllNext(old(Now()), Collect(values[..i], EntryJudge(retained)), EntryFinding(values[i], retained));
        byTarget := ValidateMappingEntry(values, i, retained, byTarget);
      }
      assert values[..|values|] == values;
    }

    /** The body of the loop over the mapping entries. */
    method ValidateMappingEntry(values: seq<Value>, i: nat, retained: set<string>, before: map<string, seq<Value>>)
      returns (byTarget: map<string, seq<Value>>)
      requires i < |values| && Indexes(before, values[..i], retained)
      modifies this
      ensures Now() == AddOne(old(Now()), EntryFinding(values[i], retained)) && mappedRows == old(mappedRows)
      ensures Indexes(byTarget, values[..i + 1], retained)
    {
      var mapping := values[i];
      EntriesNext(values, i, retained);
      byTarget := before;
      var target := ParseRow(mapping);
      if target.None? {
        Record(InvalidCustomer, InvalidPreflightInput);
      } else if !KnownType(target.value.recordType) {
        Record(InvalidCustomer, UnknownRecordType);
      } else {
        var targetKey := RowKey(target.value);
        if targetKey !in retained {
          Record(InvalidCustomer, MappingResourceMismatch);
        } else {
          byTarget := byTarget[targetKey := EntriesAt(byTarget, targetKey) + [mapping]];
        }
      }
    }

    method ValidateRows(values: seq<Value>, c: Context, byTarget: map<string, seq<Value>>)
      returns (blocked: set<string>)
      requires Indexes(byTarget, c.mappings, c.retained)
      modifies this
      ensures Now() == AddAll(old(Now()), Collect(values, RowJudge(c)))
      ensures mappedRows == old(mappedRows) + |values| - |Collect(values, RowJudge(c))|
      ensures blocked == Support(Collect(values, BlockJudge(c)))
    {
      blocked := {};
      ghost var found: seq<Finding> := [];
      for i := 0 to |values|
        invariant found == Collect(values[..i], RowJudge(c))
        invariant Now() == AddAll(old(Now()), found) && mappedRows == old(mappedRows) + i - |found|
        invariant blocked == Support(Collect(values[..i], BlockJudge(c)))
      {
        RowsNext(values, i, c);
        AddAllNext(old(Now()), found, RowFinding(values[i], c));
        blocked := ValidateRow(values[i], c, byTarget, blocked);
        found := found + OneOf(RowFinding(values[i], c));
      }
      assert values[..|values|] == values;
    }

    /** The body of the loop over the rows. */
    method ValidateRow(value: Value, c: Context, byTarget: map<string, seq<Value>>, blockedBefore: set<string>)
      returns (blocked: set<string>)
      requires Indexes(byTarget, c.mappings, c.retained)
      modifies this
      ensures Now() == AddOne(old(Now()), RowFinding(value, c))
      ensures mappedRows == old(mappedRows) + if RowFinding(value, c).None? then 1 else 0
      ensures blocked == blockedBefore + Support(OneOf(BlockedKey(value, c)))
    {
      blocked := blockedBefore;
      var row := ParseRow(value);
      if row.None? {
        Record(InvalidCustomer, InvalidPreflightInput);
        return;
      }
      if !KnownType(row.value.recordType) {
        Record(InvalidCustomer, UnknownRecordType);
        return;
      }
      blocked := ValidateKnownRow(row.value, EntriesAt(byTarget, RowKey(row.value)), c.roots, c.parses, blocked);
    }

    method ValidateKnownRow(row: Row, entries: seq<Value>, roots: set<string>, parses: string -> bool,
                            before: set<string>)
      returns (blocked: set<string>)
      modifies this
      ensures Now() == AddOne(old(Now()), MappingFinding(row, entries, roots, parses))
      ensures mappedRows == old(mappedRows) + if MappingFinding(row, entries, roots, parses).None? then 1 else 0
      ensures blocked == before + if MappingFinding(row, entries, roots, parses).Some? && IsDocument(row)
                                  then {RowKey(row)} else {}
    {
      blocked := before;
      if |entries| > 1 {
        Record(Ambiguous, AmbiguousCustomerMapping);
        blocked := BlockDocument(row, blocked);
        return;
      }
      if |entries| == 0 {
        Record(Unmapped, UnmappedCustomer);
        blocked := BlockDocument(row, blocked);
        return;
      }
      var outcome := ValidateMapping(entries[0], row, roots, parses);
      if outcome.Some? {
        if outcome.value == InvalidKnowledgePolicy || outcome.value == InvalidKnowledgeVisibility {
          Record(InvalidPolicy, outcome.value);
        } else {
          Record(InvalidCustomer, outcome.value);
        }
        blocked := BlockDocument(row, blocked);
        return;
      }
      mappedRows := mappedRows + 1;
    }

    method CountRelationConflicts(values: seq<Value>)
      modifies this
      ensures Now() == AddAll(old(Now()), Collect(values, RelationFinding)) && mappedRows == old(mappedRows)
    {
      for i := 0 to |values|
        invariant mappedRows == old(mappedRows)
        invariant Now() == AddAll(old(Now()), Collect(values[..i], RelationFinding))
      {
        CollectNext(values, i, RelationFinding);
        AddAllNext(old(Now()), Collect(values[..i], RelationFinding), RelationFinding(values[i]));
        if RelationFinding(values[i]).Some? {
          Record(RelationConflict, CrossCustomerRelation);
        }
      }
      assert values[..|values|] == values;
    }

    method CountScopedKeyConflicts(values: seq<Value>)
      modifies this
      ensures Now() == AddAll(old(Now()), KeyLog(values)) && mappedRows == old(mappedRows)
    {
      ghost var missing := Ungrouped(values, ScopedKeyGroup);
      var groups := CountGroups(values, ScopedKeyGroup, missing);
      ghost var shared := SharedGroups(values, ScopedKeyGroup);
      CountSharedGroups(groups, Collect(values, ScopedKeyGroup), shared);
      AddManySum(old(Now()), KEY_FINDING, missing, shared);
      AddAllRepeat(old(Now()), KEY_FINDING, missing + shared);
    }

    /** The loop over the scoped keys, for any way of grouping them. */
    method CountGroups(values: seq<Value>, group: Value -> Option<string>, ghost missing: nat)
      returns (groups: map<string, nat>)
      requires missing == Ungrouped(values, group)
      modifies this
      ensures mappedRows == old(mappedRows) && Now() == AddMany(old(Now()), KEY_FINDING, missing)
      ensures Counts(groups, Collect(values, group))
    {
      groups := map[];
      ghost var seen: seq<string> := [];
      for i := 0 to |values|
        invariant mappedRows == old(mappedRows)
        invariant seen == Collect(values[..i], group) && |seen| <= i
        invariant Now() == AddMany(old(Now()), KEY_FINDING, i - |seen|)
        invariant Counts(groups, seen)
      {
        CollectNext(values, i, group);
        groups := CountScopedKey(group(values[i]), groups, seen);
        seen := seen + OneOf(group(values[i]));
      }
      assert values[..|values|] == values;
    }

    /** The body of the loop over the scoped keys. */
    method CountScopedKey(group: Option<string>, before: map<string, nat>, ghost seen: seq<string>)
      returns (groups: map<string, nat>)
      requires Counts(before, seen)
      modifies this
      ensures mappedRows == old(mappedRows)
      ensures Now() == if group.None? then Add(old(Now()), KEY_FINDING) else old(Now())
      ensures Counts(groups, seen + OneOf(group))
    {
      groups := before;
      if group.None? {
        Record(UniquenessConflict, CustomerScopedUniquenessConflict);
        assert seen + OneOf(group) == seen;
      } else {
        CountGroup(groups, seen, group.value);
        groups := groups[group.value := (if group.value in groups then groups[group.value] else 0) + 1];
      }
    }

    /** The loop over the group counts; a map's entries come in no particular order. */
    method CountSharedGroups(groups: map<string, nat>, ghost seen: seq<string>, ghost shared: nat)
      requires Counts(groups, seen) && shared == |Shared(seen)|
      modifies this
      ensures mappedRows == old(mappedRows) && Now() == AddMany(old(Now()), KEY_FINDING, shared)
    {
      var left := groups.Keys;
      ghost var counted: set<string> := {};
      while left != {}
        invariant mappedRows == old(mappedRows)
        invariant left <= groups.Keys
        invariant counted == set g | g in Shared(seen) && g !in left
        invariant Now() == AddMany(old(Now()), KEY_FINDING, |counted|)
        decreases |left|
      {
        var g :| g in left;
        left := left - {g};
        if groups[g] > 1 {
          Record(UniquenessConflict, CustomerScopedUniquenessConflict);
          counted := counted + {g};
        }
      }
      assert counted == Shared(seen);
    }

    method MakeReport(totalRows: nat, retrievalBlockedRows: nat, ghost log: seq<Finding>) returns (r: Report)
      requires Now() == AddAll(ZERO, log)
      ensures r == ReportOf(log, totalRows, mappedRows, retrievalBlockedRows)
    {
      TotalsCount(log);
      var enforceReadiness := unmappedRows == 0 && ambiguousRows == 0 && invalidCustomerRows == 0
        && invalidPolicyRows == 0 && retrievalBlockedRows == 0 && relationConflicts == 0 && uniquenessConflicts == 0;
      r := Report(totalRows, mappedRows, unmappedRows, ambiguousRows, invalidCustomerRows, invalidPolicyRows,
                  retrievalBlockedRows, relationConflicts, uniquenessConflicts, enforceReadiness, Listed(reasons, 0));
    }
  }

  method BlockDocument(row: Row, before: set<string>) returns (blocked: set<string>)
    ensures blocked == before + if IsDocument(row) then {RowKey(row)} else {}
  {
    blocked := before;
    if IsDocument(row) {
      blocked := blocked + {RowKey(row)};
    }
  }

  /** The five passes, one after the other. */
  method RunPasses(i: Input, parses: string -> bool, tally: Tally) returns (blocked: set<string>)
    requires tally.Now() == ZERO && tally.mappedRows == 0
    modifies tally
    ensures tally.Now() == AddAll(ZERO, Log(i, parses)) && tally.mappedRows == MappedRows(i, parses)
    ensures blocked == Blocked(i, parses)
  {
    var retained := RetainedKeys(i.retainedRows);
    var roots := tally.ValidateCustomerRoots(i.customerRoots);
    var byTarget := tally.ValidateMappingEntries(i.approvedMappings, retained);
    blocked := tally.ValidateRows(i.retainedRows, Context(roots, i.approvedMappings, retained, parses), byTarget);
    tally.CountRelationConflicts(i.relations);
    tally.CountScopedKeyConflicts(i.scopedKeys);
    LogSplits(i, parses);
  }

  method EvaluateInput(i: Input, parses: string -> bool, tally: Tally) returns (r: Report)
    requires tally.Now() == ZERO && tally.mappedRows == 0
    modifies tally
    ensures r == EvaluatedInput(i, parses)
  {
    var blocked := RunPasses(i, parses, tally);
    r := tally.MakeReport(|i.retainedRows|, |blocked|, Log(i, parses));
  }

  method Evaluate(input: Value, parses: string -> bool) returns (r: Report)
    ensures r == Evaluated(input, parses)
  {
    var parsed := ParseInput(input);
    var tally := new Tally();
    if parsed.None? {
      AddAllNext(ZERO, [], Some(ROOT_FINDING));
      tally.Record(InvalidCustomer, InvalidPreflightInput);
      r := tally.MakeReport(0, 0, [] + [ROOT_FINDING]);
      return;
    }
    r := EvaluateInput(parsed.value, parses, tally);
  }

  // ----------------------------------------------------------------- Loop steps

  /** The findings of the five passes add up one pass after the other. */
  lemma LogSplits(i: Input, parses: string -> bool)
    ensures AddAll(ZERO, Log(i, parses))
            == AddAll(AddAll(AddAll(AddAll(AddAll(ZERO, RootLog(i.customerRoots)), EntryLog(i)), RowLog(i, parses)),
                             Collect(i.relations, RelationFinding)), KeyLog(i.scopedKeys))
  {
    FiveLogs(RootLog(i.customerRoots), EntryLog(i), RowLog(i, parses), Collect(i.relations, RelationFinding),
             KeyLog(i.scopedKeys));
  }

  lemma FiveLogs(a: seq<Finding>, b: seq<Finding>, c: seq<Finding>, d: seq<Finding>, e: seq<Finding>)
    ensures AddAll(ZERO, a + b + c + d + e) == AddAll(AddAll(AddAll(AddAll(AddAll(ZERO, a), b), c), d), e)
  {
    AddAllConcat(ZERO, a + b + c + d, e);
    AddAllConcat(ZERO, a + b + c, d);
    AddAllConcat(ZERO, a + b, c);
    AddAllConcat(ZERO, a, b);
  }

  lemma RowsNext(values: seq<Value>, i: nat, c: Context)
    requires i < |values|
    ensures Collect(values[..i + 1], RowJudge(c)) == Collect(values[..i], RowJudge(c)) + OneOf(RowFinding(values[i], c))
    ensures Support(Collect(values[..i + 1], BlockJudge(c)))
            == Support(Collect(values[..i], BlockJudge(c))) + Support(OneOf(BlockedKey(values[i], c)))
  {
    CollectNext(values, i, RowJudge(c));
    CollectNext(values, i, BlockJudge(c));
    SupportNext(Collect(values[..i], BlockJudge(c)), BlockedKey(values[i], c));
  }

  lemma SupportNext(s: seq<string>, o: Option<string>)
    ensures Support(s + OneOf(o)) == Support(s) + Support(OneOf(o))
  {
  }

  /** One more root either is new, or adds a finding. */
  lemma RootNext(values: seq<Value>, i: nat)
    requires i < |values|
    ensures var name, roots := RootName(values[i]), RootSet(values[..i]);
            if name.None? || name.value in roots then
              RootSet(values[..i + 1]) == roots
              && RootLog(values[..i + 1]) == RootLog(values[..i]) + OneOf(Some(ROOT_FINDING))
            else RootSet(values[..i + 1]) == roots + {name.value} && RootLog(values[..i + 1]) == RootLog(values[..i])
  {
    var name, roots := RootName(values[i]), RootSet(values[..i]);
    RootSetNext(values, i);
    if name.None? || name.value in roots {
      assert roots + Support(OneOf(name)) == roots;
      RootLogNext(values, i, 0);
    } else {
      assert Support(OneOf(name)) == {name.value};
      RootLogNext(values, i, 1);
    }
  }

  lemma RootSetNext(values: seq<Value>, i: nat)
    requires i < |values|
    ensures RootSet(values[..i + 1]) == RootSet(values[..i]) + Support(OneOf(RootName(values[i])))
  {
    CollectNext(values, i, RootName);
    SupportNext(Collect(values[..i], RootName), RootName(values[i]));
  }

  lemma RootLogNext(values: seq<Value>, i: nat, grown: nat)
    requires i < |values| && grown <= 1
    requires |RootSet(values[..i + 1])| == |RootSet(values[..i])| + grown
    ensures RootLog(values[..i + 1]) == RootLog(values[..i]) + if grown == 0 then [ROOT_FINDING] else []
  {
    DistinctIff(values[..i], RootName);
  }

  /** One more accepted entry goes to the end of its key's list and of no other. */
  lemma EntriesNext(values: seq<Value>, i: nat, retained: set<string>)
    requires i < |values|
    ensures forall key :: Entries(values[..i + 1], retained, key)
                          == Entries(values[..i], retained, key) + OneOf(EntryFor(values[i], retained, key))
  {
    forall key
      ensures Entries(values[..i + 1], retained, key)
              == Entries(values[..i], retained, key) + OneOf(EntryFor(values[i], retained, key))
    {
      CollectNext(values, i, EntrySelect(retained, key));
    }
  }

  lemma CountGroup(groups: map<string, nat>, seen: seq<string>, g: string)
    requires Counts(groups, seen)
    ensures Counts(groups[g := (if g in groups then groups[g] else 0) + 1], seen + [g])
  {
    assert forall h :: multiset(seen + [g])[h] == multiset(seen)[h] + if h == g then 1 else 0;
    assert g !in groups ==> multiset(seen)[g] == 0;
  }
}
