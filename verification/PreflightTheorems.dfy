/** What a preflight report says about the data it was made from. */
module PreflightTheorems {
  import opened Prelude
  import opened Json
  import opened Collecting
  import opened Preflight
  import Policies

  // ------------------------------------------------------------- Counts and logs

  function CounterIs(c: Counter): Finding -> Option<Finding> {
    (f: Finding) => if f.counter == c then Some(f) else None
  }

  lemma {:induction false} CountIsCollect(log: seq<Finding>, c: Counter)
    ensures Count(log, c) == |Collect(log, CounterIs(c))|
  {
    if log != [] {
      CountIsCollect(log[..|log| - 1], c);
    }
  }

  lemma CountPermutes(a: seq<Finding>, b: seq<Finding>, c: Counter)
    requires multiset(a) == multiset(b)
    ensures Count(a, c) == Count(b, c)
  {
    CountIsCollect(a, c);
    CountIsCollect(b, c);
    CollectPermutes(a, b, CounterIs(c));
    SamePermutation(Collect(a, CounterIs(c)), Collect(b, CounterIs(c)));
  }

  lemma CountConcat(a: seq<Finding>, b: seq<Finding>, c: Counter)
    ensures Count(a + b, c) == Count(a, c) + Count(b, c)
  {
    CountIsCollect(a, c);
    CountIsCollect(b, c);
    CountIsCollect(a + b, c);
    CollectConcat(a, b, CounterIs(c));
  }

  lemma {:induction false} CountAll(log: seq<Finding>)
    ensures Count(log, Unmapped) + Count(log, Ambiguous) + Count(log, InvalidCustomer) + Count(log, InvalidPolicy)
            + Count(log, RelationConflict) + Count(log, UniquenessConflict) == |log|
  {
    if log != [] {
      CountAll(log[..|log| - 1]);
    }
  }

  lemma {:induction false} CountNone(log: seq<Finding>, c: Counter)
    requires forall f :: f in log ==> f.counter != c
    ensures Count(log, c) == 0
  {
    if log != [] {
      CountNone(log[..|log| - 1], c);
    }
  }

  lemma SameReasons(a: seq<Finding>, b: seq<Finding>)
    requires multiset(a) == multiset(b)
    ensures Reasons(a) == Reasons(b)
  {
    assert forall f :: f in a <==> f in multiset(a);
    assert forall f :: f in b <==> f in multiset(b);
  }

  lemma SameReport(a: seq<Finding>, b: seq<Finding>, totalRows: nat, mappedRows: nat, blockedRows: nat)
    requires multiset(a) == multiset(b)
    ensures ReportOf(a, totalRows, mappedRows, blockedRows) == ReportOf(b, totalRows, mappedRows, blockedRows)
  {
    SameReasons(a, b);
    CountPermutes(a, b, Unmapped);
    CountPermutes(a, b, Ambiguous);
    CountPermutes(a, b, InvalidCustomer);
    CountPermutes(a, b, InvalidPolicy);
    CountPermutes(a, b, RelationConflict);
    CountPermutes(a, b, UniquenessConflict);
  }

  // ------------------------------------------------------------ Reasons, listed

  lemma {:induction false} ListedHas(reasons: set<Reason>, from: nat, r: Reason)
    requires from <= |SafeReasons()|
    ensures r in Listed(reasons, from) <==> r in reasons && r in SafeReasons()[from..]
    decreases |SafeReasons()| - from
  {
    if from < |SafeReasons()| {
      ListedHas(reasons, from + 1, r);
      assert SafeReasons()[from..] == [SafeReasons()[from]] + SafeReasons()[from + 1..];
    }
  }

  /** Every reason is a safe reason code, so none is filtered out of the report. */
  lemma AllSafe(r: Reason)
    ensures r in SafeReasons()
  {
    var all := SafeReasons();
    match r
    case AmbiguousCustomerMapping => assert all[0] == r;
    case CrossCustomerRelation => assert all[1] == r;
    case CustomerRootNotFound => assert all[2] == r;
    case CustomerScopedUniquenessConflict => assert all[3] == r;
    case InvalidCustomerId => assert all[4] == r;
    case InvalidKnowledgePolicy => assert all[5] == r;
    case InvalidKnowledgeVisibility => assert all[6] == r;
    case InvalidMappingApproval => assert all[7] == r;
    case InvalidPreflightInput => assert all[8] == r;
    case MappingResourceMismatch => assert all[9] == r;
    case UnknownRecordType => assert all[10] == r;
    case UnmappedCustomer => assert all[11] == r;
  }

  /** The report lists a reason exactly when some finding gave it. */
  lemma ListedIff(log: seq<Finding>, r: Reason)
    ensures r in Listed(Reasons(log), 0) <==> exists f :: f in log && f.reason == r
  {
    ListedHas(Reasons(log), 0, r);
    AllSafe(r);
    assert SafeReasons()[0..] == SafeReasons();
  }

  // -------------------------------------------------------------- Target keys

  lemma NoNul(t: string)
    requires KnownType(t)
    ensures '\0' !in t
  {
    ListableNoNul(t, 0);
  }

  lemma TypeNameNoNul(k: nat)
    ensures '\0' !in TypeName(k)
  {
    if k < 5 {
      NoNulFrom0(k);
    } else if k < 8 {
      NoNulFrom5(k);
    } else if k < 10 {
      NoNulFrom8(k);
    } else if k < 15 {
      NoNulFrom10(k);
    } else {
      NoNulFrom15(k);
    }
  }

  lemma NoNulFrom0(k: nat)
    requires k < 5
    ensures '\0' !in TypeName(k)
  {
  }

  lemma NoNulFrom5(k: nat)
    requires 5 <= k < 8
    ensures '\0' !in TypeName(k)
  {
  }

  lemma NoNulFrom8(k: nat)
    requires 8 <= k < 10
    ensures '\0' !in TypeName(k)
  {
  }

  lemma NoNulFrom10(k: nat)
    requires 10 <= k < 15
    ensures '\0' !in TypeName(k)
  {
  }

  lemma NoNulFrom15(k: nat)
    requires 15 <= k
    ensures '\0' !in TypeName(k)
  {
  }

  lemma {:induction false} ListableNoNul(t: string, k: nat)
    requires Listable(t, k)
    ensures '\0' !in t
    decreases 20 - k
  {
    TypeNameNoNul(k);
    if t != TypeName(k) {
      ListableNoNul(t, k + 1);
    }
  }

  /** Where the first NUL is, or the end of the text. */
  function FirstNul(s: string): nat {
    if s == [] || s[0] == '\0' then 0 else 1 + FirstNul(s[1..])
  }

  lemma {:induction false} FirstNulAfter(t: string, rest: string)
    requires '\0' !in t
    ensures FirstNul(t + ['\0'] + rest) == |t|
  {
    if t != [] {
      FirstNulAfter(t[1..], rest);
      assert (t + ['\0'] + rest)[1..] == t[1..] + ['\0'] + rest;
    }
  }

  /** What comes before the first NUL and what comes after it. */
  lemma CutAtNul(a: string, rest: string, b: string, other: string)
    requires '\0' !in a && '\0' !in b && a + ['\0'] + rest == b + ['\0'] + other
    ensures a == b && rest == other
  {
    FirstNulAfter(a, rest);
    FirstNulAfter(b, other);
    var key := a + ['\0'] + rest;
    assert a == key[..|a|] && b == key[..|a|];
    assert rest == key[|a| + 1..] && other == key[|a| + 1..];
  }

  /** The NUL-separated key of a row of a known type determines the row. */
  lemma KeyInjective(a: Row, b: Row)
    requires KnownType(a.recordType) && KnownType(b.recordType) && RowKey(a) == RowKey(b)
    ensures a == b
  {
    NoNul(a.recordType);
    NoNul(b.recordType);
    CutAtNul(a.recordType, a.recordId, b.recordType, b.recordId);
  }

  /** An accepted entry found under a row's key really targets that row. */
  lemma EntryTargetsRow(mappings: seq<Value>, retained: set<string>, row: Row, entry: Value)
    requires KnownType(row.recordType) && entry in Entries(mappings, retained, RowKey(row))
    ensures ParseRow(entry) == Some(row)
  {
    var m := CollectFrom(mappings, EntrySelect(retained, RowKey(row)), entry);
    assert EntryFor(m, retained, RowKey(row)) == Some(entry);
    KeyInjective(ParseRow(entry).value, row);
  }

  /** So the mismatch branch of the mapping check is dead. */
  lemma MismatchIsDead(mappings: seq<Value>, retained: set<string>, row: Row, entry: Value, roots: set<string>,
                       parses: string -> bool)
    requires KnownType(row.recordType) && entry in Entries(mappings, retained, RowKey(row))
    ensures ValidateMapping(entry, row, roots, parses) != Some(MappingResourceMismatch)
  {
    EntryTargetsRow(mappings, retained, row, entry);
  }

  // --------------------------------------------------------------- Readiness

  /** The mapping names a listed root and carries an approval and, for a document, a
      policy that can be normalised. */
  ghost predicate Approved(mapping: Value, row: Row, i: Input, parses: string -> bool) {
    && NonBlank(Field(mapping, "customerId")).Some?
    && (exists r :: r in i.customerRoots && RootName(r) == NonBlank(Field(mapping, "customerId")))
    && NonBlank(Field(mapping, "mappingSource")).Some?
    && NonBlank(Field(mapping, "approvedBy")).Some?
    && ApprovedTimestamp(Field(mapping, "approvedAt"), parses)
    && (IsDocument(row) ==> Policies.NormalizeApproved(mapping).Ok?)
  }

  predicate Targets(mapping: Value, row: Row) {
    ParseRow(mapping) == Some(row)
  }

  predicate HasKnownRow(v: Value) {
    ParseRow(v).Some? && KnownType(ParseRow(v).value.recordType)
  }

  /** Exactly one mapping targets the row, and it is approved. */
  ghost predicate MappedOnce(row: Row, i: Input, parses: string -> bool) {
    exists j :: 0 <= j < |i.approvedMappings| && Targets(i.approvedMappings[j], row)
                && Approved(i.approvedMappings[j], row, i, parses)
                && forall k :: 0 <= k < |i.approvedMappings| && Targets(i.approvedMappings[k], row) ==> k == j
  }

  ghost predicate TargetsRetained(mapping: Value, i: Input) {
    HasKnownRow(mapping) && exists v :: v in i.retainedRows && ParseRow(v) == ParseRow(mapping)
  }

  predicate InsideOneCustomer(relation: Value) {
    var child, parent := Field(relation, "childCustomerId"), Field(relation, "parentCustomerId");
    NonBlank(child).Some? && child == parent
  }

  /** What the preflight promises about the data when it reports readiness. */
  ghost predicate Sound(i: Input, parses: string -> bool) {
    && Distinct(i.customerRoots, RootName)
    && (forall v :: v in i.retainedRows ==> HasKnownRow(v) && MappedOnce(ParseRow(v).value, i, parses))
    && (forall m :: m in i.approvedMappings ==> TargetsRetained(m, i))
    && (forall r :: r in i.relations ==> InsideOneCustomer(r))
    && Distinct(i.scopedKeys, ScopedKeyGroup)
  }

  lemma RootLogEmpty(roots: seq<Value>)
    ensures RootLog(roots) == [] <==> Distinct(roots, RootName)
  {
    DistinctIff(roots, RootName);
    RepeatedOnly(ROOT_FINDING, |roots| - |RootSet(roots)|);
  }

  lemma RepeatedIsShared(groups: seq<string>, i: nat, j: nat)
    requires i < j < |groups| && groups[i] == groups[j]
    ensures groups[i] in Shared(groups)
  {
    MultisetWithout(groups, j);
    var rest := groups[..j] + groups[j + 1..];
    assert rest[i] == groups[i];
    assert groups[i] in multiset(rest);
  }

  lemma {:induction false} OccursOnce(groups: seq<string>, g: string)
    requires forall i, j :: 0 <= i < j < |groups| ==> groups[i] != groups[j]
    ensures multiset(groups)[g] <= 1
  {
    if groups != [] {
      var init, last := groups[..|groups| - 1], groups[|groups| - 1];
      assert groups == init + [last];
      OccursOnce(init, g);
      if g == last {
        assert g !in init;
      }
    }
  }

  /** No group is shared exactly when no two keys have the same one. */
  lemma SharedEmpty(groups: seq<string>)
    ensures Shared(groups) == {} <==> |Support(groups)| == |groups|
  {
    SupportSize(groups);
    if i, j :| 0 <= i < j < |groups| && groups[i] == groups[j] {
      RepeatedIsShared(groups, i, j);
    } else {
      forall g | g in groups
        ensures g !in Shared(groups)
      {
        OccursOnce(groups, g);
      }
    }
  }

  lemma KeyLogEmpty(keys: seq<Value>)
    ensures KeyLog(keys) == [] <==> Distinct(keys, ScopedKeyGroup)
  {
    var missing, shared := Ungrouped(keys, ScopedKeyGroup), SharedGroups(keys, ScopedKeyGroup);
    RepeatedOnly(KEY_FINDING, missing + shared);
    NoConflictIff(keys, ScopedKeyGroup);
  }

  lemma NoConflictIff(keys: seq<Value>, group: Value -> Option<string>)
    ensures Ungrouped(keys, group) == 0 && SharedGroups(keys, group) == 0 <==> Distinct(keys, group)
  {
    DistinctIff(keys, group);
    CollectSize(keys, group);
    SharedEmpty(Collect(keys, group));
    SupportSize(Collect(keys, group));
  }

  lemma RelationsEmpty(relations: seq<Value>)
    ensures Collect(relations, RelationFinding) == [] <==> forall r :: r in relations ==> InsideOneCustomer(r)
  {
    CollectNone(relations, RelationFinding);
    forall r | r in relations
      ensures RelationFinding(r).None? <==> InsideOneCustomer(r)
    {
    }
  }

  /** One thing is collected exactly when one position yields something. */
  lemma CollectSingle<T, U>(s: seq<T>, f: T -> Option<U>, j: nat)
    requires j < |s| && f(s[j]).Some?
    ensures |Collect(s, f)| == 1 <==> forall k :: 0 <= k < |s| && f(s[k]).Some? ==> k == j
    ensures |Collect(s, f)| == 1 ==> Collect(s, f) == [f(s[j]).value]
  {
    var before, after := s[..j], s[j + 1..];
    CollectAround(s, f, j);
    CollectNone(before, f);
    CollectNone(after, f);
    if k :| 0 <= k < |s| && f(s[k]).Some? && k != j {
      YieldsAside(s, f, j, k);
    } else {
      assert forall x :: x in before ==> f(x).None?;
      assert forall x :: x in after ==> f(x).None?;
    }
  }

  lemma YieldsAside<T, U>(s: seq<T>, f: T -> Option<U>, j: nat, k: nat)
    requires j < |s| && k < |s| && k != j && f(s[k]).Some?
    ensures Collect(s[..j], f) != [] || Collect(s[j + 1..], f) != []
  {
    if k < j {
      assert s[k] == s[..j][k];
      CollectHas(s[..j], f, s[k]);
    } else {
      assert s[k] == s[j + 1..][k - j - 1];
      CollectHas(s[j + 1..], f, s[k]);
    }
  }

  lemma KeyRetained(rows: seq<Value>, key: string)
    ensures key in RetainedKeys(rows) <==> exists v :: v in rows && KeyOf(v) == Some(key)
  {
    if key in RetainedKeys(rows) {
      var v := CollectFrom(rows, KeyOf, key);
    }
    forall v | v in rows && KeyOf(v) == Some(key)
      ensures key in RetainedKeys(rows)
    {
      CollectHas(rows, KeyOf, v);
    }
  }

  /** With every row of a known type, an entry is accepted exactly when it targets a
      retained row. */
  lemma AcceptedIff(i: Input, m: Value)
    requires forall v :: v in i.retainedRows ==> HasKnownRow(v)
    ensures EntryFinding(m, RetainedKeys(i.retainedRows)).None? <==> TargetsRetained(m, i)
  {
    if HasKnownRow(m) {
      var key := RowKey(ParseRow(m).value);
      KeyRetained(i.retainedRows, key);
      forall v | v in i.retainedRows && KeyOf(v) == Some(key)
        ensures ParseRow(v) == ParseRow(m)
      {
        KeyInjective(ParseRow(v).value, ParseRow(m).value);
      }
    }
  }

  lemma RootListed(i: Input, name: string)
    ensures name in RootSet(i.customerRoots) <==> exists r :: r in i.customerRoots && RootName(r) == Some(name)
  {
    if name in RootSet(i.customerRoots) {
      var r := CollectFrom(i.customerRoots, RootName, name);
    }
    forall r | r in i.customerRoots && RootName(r) == Some(name)
      ensures name in RootSet(i.customerRoots)
    {
      CollectHas(i.customerRoots, RootName, r);
    }
  }

  lemma ValidIff(m: Value, row: Row, i: Input, parses: string -> bool)
    requires Targets(m, row)
    ensures ValidateMapping(m, row, RootSet(i.customerRoots), parses).None? <==> Approved(m, row, i, parses)
  {
    var customerId := NonBlank(Field(m, "customerId"));
    if customerId.Some? {
      RootListed(i, customerId.value);
    }
  }

  /** A retained row's entries are exactly the mappings that target it. */
  lemma EntryTargets(i: Input, m: Value, row: Row)
    requires KnownType(row.recordType) && RowKey(row) in RetainedKeys(i.retainedRows)
    ensures EntryFor(m, RetainedKeys(i.retainedRows), RowKey(row)) == if Targets(m, row) then Some(m) else None
  {
    if EntryFor(m, RetainedKeys(i.retainedRows), RowKey(row)).Some? {
      KeyInjective(ParseRow(m).value, row);
    }
  }

  lemma RowCleanIff(i: Input, v: Value, parses: string -> bool)
    requires v in i.retainedRows && HasKnownRow(v)
    ensures RowFinding(v, ContextOf(i, parses)).None? <==> MappedOnce(ParseRow(v).value, i, parses)
  {
    var row, mappings := ParseRow(v).value, i.approvedMappings;
    var select := EntrySelect(RetainedKeys(i.retainedRows), RowKey(row));
    KeyRetained(i.retainedRows, RowKey(row));
    forall k | 0 <= k < |mappings|
      ensures select(mappings[k]) == if Targets(mappings[k], row) then Some(mappings[k]) else None
    {
      EntryTargets(i, mappings[k], row);
    }
    EntriesCleanIff(row, i, parses, select);
  }

  lemma EntriesCleanIff(row: Row, i: Input, parses: string -> bool, select: Value -> Option<Value>)
    requires forall k :: 0 <= k < |i.approvedMappings| ==>
      (select(i.approvedMappings[k]).Some? <==> Targets(i.approvedMappings[k], row))
    requires forall k :: 0 <= k < |i.approvedMappings| && select(i.approvedMappings[k]).Some? ==>
      select(i.approvedMappings[k]) == Some(i.approvedMappings[k])
    ensures MappingFinding(row, Collect(i.approvedMappings, select), RootSet(i.customerRoots), parses).None?
            <==> MappedOnce(row, i, parses)
  {
    var mappings := i.approvedMappings;
    if j :| 0 <= j < |mappings| && Targets(mappings[j], row) {
      CollectSingle(mappings, select, j);
      ValidIff(mappings[j], row, i, parses);
    } else {
      CollectNone(mappings, select);
      assert Collect(mappings, select) == [];
    }
  }

  lemma BlockedEmpty(i: Input, parses: string -> bool)
    requires RowLog(i, parses) == []
    ensures Blocked(i, parses) == {}
  {
    var c := ContextOf(i, parses);
    CollectNone(i.retainedRows, RowJudge(c));
    CollectNone(i.retainedRows, BlockJudge(c));
  }

  lemma LogEmptyIff(i: Input, parses: string -> bool)
    ensures Log(i, parses) == [] <==> Sound(i, parses)
  {
    RootLogEmpty(i.customerRoots);
    RelationsEmpty(i.relations);
    KeyLogEmpty(i.scopedKeys);
    RowsAndEntriesEmptyIff(i, parses);
  }

  lemma RowsAndEntriesEmptyIff(i: Input, parses: string -> bool)
    ensures EntryLog(i) == [] && RowLog(i, parses) == [] <==>
            (forall v :: v in i.retainedRows ==> HasKnownRow(v) && MappedOnce(ParseRow(v).value, i, parses))
            && (forall m :: m in i.approvedMappings ==> TargetsRetained(m, i))
  {
    var c := ContextOf(i, parses);
    CollectNone(i.approvedMappings, EntryJudge(c.retained));
    CollectNone(i.retainedRows, RowJudge(c));
    if forall v :: v in i.retainedRows ==> HasKnownRow(v) {
      forall m
        ensures EntryFinding(m, c.retained).None? <==> TargetsRetained(m, i)
      {
        AcceptedIff(i, m);
      }
      forall v | v in i.retainedRows
        ensures RowFinding(v, c).None? <==> MappedOnce(ParseRow(v).value, i, parses)
      {
        RowCleanIff(i, v, parses);
      }
    }
  }

  /** Nothing blocks exactly when nothing was found. */
  lemma ReadyIffNothingFound(log: seq<Finding>, totalRows: nat, mappedRows: nat, blockedRows: nat)
    requires log == [] ==> blockedRows == 0
    ensures var r := ReportOf(log, totalRows, mappedRows, blockedRows);
            && (r.enforceReadiness <==> log == [])
            && (r.blockingReasons == [] <==> log == [])
  {
    CountAll(log);
    if log != [] {
      ListedIff(log, log[0].reason);
    } else if Listed(Reasons(log), 0) != [] {
      ListedIff(log, Listed(Reasons(log), 0)[0]);
    }
  }

  /** The preflight reports readiness exactly when it gives no blocking reason, and
      exactly when the input is well formed and the data sound. */
  lemma ReadyIff(input: Value, parses: string -> bool)
    ensures var r := Evaluated(input, parses);
            && (r.enforceReadiness <==> r.blockingReasons == [])
            && (r.enforceReadiness <==> ParseInput(input).Some? && Sound(ParseInput(input).value, parses))
  {
    var parsed := ParseInput(input);
    if parsed.None? {
      ReadyIffNothingFound([ROOT_FINDING], 0, 0, 0);
    } else {
      var i := parsed.value;
      LogEmptyIff(i, parses);
      if Log(i, parses) == [] {
        BlockedEmpty(i, parses);
      }
      ReadyIffNothingFound(Log(i, parses), |i.retainedRows|, MappedRows(i, parses), |Blocked(i, parses)|);
    }
  }

  // ----------------------------------------------------------- Order of reading

  /** The same five lists, each read in some other order. */
  ghost predicate Reordered(i: Input, k: Input) {
    && multiset(i.customerRoots) == multiset(k.customerRoots)
    && multiset(i.retainedRows) == multiset(k.retainedRows)
    && multiset(i.approvedMappings) == multiset(k.approvedMappings)
    && multiset(i.relations) == multiset(k.relations)
    && multiset(i.scopedKeys) == multiset(k.scopedKeys)
  }

  lemma SupportPermutes<T, U>(a: seq<T>, b: seq<T>, f: T -> Option<U>)
    requires multiset(a) == multiset(b)
    ensures |a| == |b| && |Collect(a, f)| == |Collect(b, f)| && Support(Collect(a, f)) == Support(Collect(b, f))
  {
    CollectPermutes(a, b, f);
    SamePermutation(a, b);
    SamePermutation(Collect(a, f), Collect(b, f));
  }

  lemma SameKeyLog(a: seq<Value>, b: seq<Value>)
    requires multiset(a) == multiset(b)
    ensures KeyLog(a) == KeyLog(b)
  {
    SameUngrouped(a, b, ScopedKeyGroup);
    SameShared(a, b, ScopedKeyGroup);
  }

  lemma SameUngrouped(a: seq<Value>, b: seq<Value>, group: Value -> Option<string>)
    requires multiset(a) == multiset(b)
    ensures Ungrouped(a, group) == Ungrouped(b, group)
  {
    SupportPermutes(a, b, group);
  }

  lemma SameShared(a: seq<Value>, b: seq<Value>, group: Value -> Option<string>)
    requires multiset(a) == multiset(b)
    ensures SharedGroups(a, group) == SharedGroups(b, group)
  {
    CollectPermutes(a, b, group);
    var x, y := Collect(a, group), Collect(b, group);
    SamePermutation(x, y);
    assert forall g :: g in x <==> g in Support(x);
    assert forall g :: g in y <==> g in Support(y);
    assert Shared(x) == Shared(y);
  }

  /** A row's verdict does not depend on the order of the mappings. */
  lemma SameEntries(a: seq<Value>, b: seq<Value>, retained: set<string>, row: Row, roots: set<string>,
                    parses: string -> bool)
    requires multiset(a) == multiset(b)
    ensures MappingFinding(row, Entries(a, retained, RowKey(row)), roots, parses)
            == MappingFinding(row, Entries(b, retained, RowKey(row)), roots, parses)
  {
    var x, y := Entries(a, retained, RowKey(row)), Entries(b, retained, RowKey(row));
    CollectPermutes(a, b, EntrySelect(retained, RowKey(row)));
    SameVerdict(x, y, row, roots, parses);
  }

  lemma SameVerdict(x: seq<Value>, y: seq<Value>, row: Row, roots: set<string>, parses: string -> bool)
    requires multiset(x) == multiset(y)
    ensures MappingFinding(row, x, roots, parses) == MappingFinding(row, y, roots, parses)
  {
    SamePermutation(x, y);
    if |x| == 1 {
      OnlyOne(x, y);
    }
  }

  lemma OnlyOne<T>(x: seq<T>, y: seq<T>)
    requires |x| == 1 && |y| == 1 && multiset(x) == multiset(y)
    ensures x == y
  {
    assert x[0] in multiset(y);
  }

  lemma SameRowFinding(v: Value, c: Context, d: Context)
    requires c.roots == d.roots && c.retained == d.retained && c.parses == d.parses
    requires multiset(c.mappings) == multiset(d.mappings)
    ensures RowFinding(v, c) == RowFinding(v, d) && BlockedKey(v, c) == BlockedKey(v, d)
  {
    if HasKnownRow(v) {
      SameEntries(c.mappings, d.mappings, c.retained, ParseRow(v).value, c.roots, c.parses);
    }
  }

  lemma SameRows(a: seq<Value>, b: seq<Value>, c: Context, d: Context)
    requires multiset(a) == multiset(b)
    requires c.roots == d.roots && c.retained == d.retained && c.parses == d.parses
    requires multiset(c.mappings) == multiset(d.mappings)
    ensures multiset(Collect(a, RowJudge(c))) == multiset(Collect(b, RowJudge(d)))
    ensures Support(Collect(a, BlockJudge(c))) == Support(Collect(b, BlockJudge(d)))
  {
    forall v
      ensures RowJudge(c)(v) == RowJudge(d)(v) && BlockJudge(c)(v) == BlockJudge(d)(v)
    {
      SameRowFinding(v, c, d);
    }
    CollectPermutes(a, b, RowJudge(c));
    CollectSame(b, RowJudge(c), RowJudge(d));
    SupportPermutes(a, b, BlockJudge(c));
    CollectSame(b, BlockJudge(c), BlockJudge(d));
  }

  lemma SameRoots(a: seq<Value>, b: seq<Value>)
    requires multiset(a) == multiset(b)
    ensures RootSet(a) == RootSet(b) && RootLog(a) == RootLog(b)
  {
    SupportPermutes(a, b, RootName);
  }

  lemma SameContext(i: Input, k: Input, parses: string -> bool)
    requires Reordered(i, k)
    ensures RetainedKeys(i.retainedRows) == RetainedKeys(k.retainedRows)
    ensures ContextOf(i, parses).roots == ContextOf(k, parses).roots
    ensures multiset(EntryLog(i)) == multiset(EntryLog(k))
  {
    SameRoots(i.customerRoots, k.customerRoots);
    SupportPermutes(i.retainedRows, k.retainedRows, KeyOf);
    CollectPermutes(i.approvedMappings, k.approvedMappings, EntryJudge(RetainedKeys(i.retainedRows)));
  }

  lemma SameRowLog(i: Input, k: Input, parses: string -> bool)
    requires Reordered(i, k)
    ensures multiset(RowLog(i, parses)) == multiset(RowLog(k, parses))
    ensures |RowLog(i, parses)| == |RowLog(k, parses)| && Blocked(i, parses) == Blocked(k, parses)
  {
    SameContext(i, k, parses);
    SameRows(i.retainedRows, k.retainedRows, ContextOf(i, parses), ContextOf(k, parses));
    SamePermutation(RowLog(i, parses), RowLog(k, parses));
  }

  lemma SameLog(i: Input, k: Input, parses: string -> bool)
    requires Reordered(i, k)
    ensures multiset(Log(i, parses)) == multiset(Log(k, parses))
  {
    SameRoots(i.customerRoots, k.customerRoots);
    SameContext(i, k, parses);
    SameRowLog(i, k, parses);
    CollectPermutes(i.relations, k.relations, RelationFinding);
    SameKeyLog(i.scopedKeys, k.scopedKeys);
    SameFive(RootLog(i.customerRoots), EntryLog(i), EntryLog(k), RowLog(i, parses), RowLog(k, parses),
             Collect(i.relations, RelationFinding), Collect(k.relations, RelationFinding), KeyLog(i.scopedKeys));
  }

  lemma SameFive(a: seq<Finding>, b: seq<Finding>, b': seq<Finding>, c: seq<Finding>, c': seq<Finding>,
                 d: seq<Finding>, d': seq<Finding>, e: seq<Finding>)
    requires multiset(b) == multiset(b') && multiset(c) == multiset(c') && multiset(d) == multiset(d')
    ensures multiset(a + b + c + d + e) == multiset(a + b' + c' + d' + e)
  {
  }

  /** The report does not depend on the order of any of the five lists. */
  lemma OrderDoesNotMatter(i: Input, k: Input, parses: string -> bool)
    requires Reordered(i, k)
    ensures EvaluatedInput(i, parses) == EvaluatedInput(k, parses)
  {
    SameLog(i, k, parses);
    SameRowLog(i, k, parses);
    SamePermutation(i.retainedRows, k.retainedRows);
    SameReport(Log(i, parses), Log(k, parses), |i.retainedRows|, MappedRows(i, parses), |Blocked(i, parses)|);
  }

  // --------------------------------------------------------------- Conservation

  lemma RowCounters(i: Input, parses: string -> bool, f: Finding)
    requires f in RowLog(i, parses)
    ensures f.counter != RelationConflict && f.counter != UniquenessConflict
  {
    var v := CollectFrom(i.retainedRows, RowJudge(ContextOf(i, parses)), f);
    RowCounter(v, ContextOf(i, parses));
  }

  lemma RowCounter(v: Value, c: Context)
    requires RowFinding(v, c).Some?
    ensures RowFinding(v, c).value.counter != RelationConflict && RowFinding(v, c).value.counter != UniquenessConflict
  {
  }

  lemma EntryCounters(i: Input, f: Finding)
    requires f in EntryLog(i)
    ensures f.counter == InvalidCustomer
  {
    var v := CollectFrom(i.approvedMappings, EntryJudge(RetainedKeys(i.retainedRows)), f);
  }

  lemma RelationCounters(relations: seq<Value>, f: Finding)
    requires f in Collect(relations, RelationFinding)
    ensures f.counter == RelationConflict
  {
    var v := CollectFrom(relations, RelationFinding, f);
  }

  function RowCount(log: seq<Finding>): nat {
    Count(log, Unmapped) + Count(log, Ambiguous) + Count(log, InvalidCustomer) + Count(log, InvalidPolicy)
  }

  lemma RowCountConcat(a: seq<Finding>, b: seq<Finding>)
    ensures RowCount(a + b) == RowCount(a) + RowCount(b)
  {
    CountConcat(a, b, Unmapped);
    CountConcat(a, b, Ambiguous);
    CountConcat(a, b, InvalidCustomer);
    CountConcat(a, b, InvalidPolicy);
  }

  /** All of a log's findings are about rows, or none is. */
  lemma RowCountAll(log: seq<Finding>)
    requires forall f :: f in log ==> f.counter != RelationConflict && f.counter != UniquenessConflict
    ensures RowCount(log) == |log|
  {
    CountAll(log);
    CountNone(log, RelationConflict);
    CountNone(log, UniquenessConflict);
  }

  lemma RowCountNone(log: seq<Finding>)
    requires forall f :: f in log ==> f.counter == RelationConflict || f.counter == UniquenessConflict
    ensures RowCount(log) == 0
  {
    CountNone(log, Unmapped);
    CountNone(log, Ambiguous);
    CountNone(log, InvalidCustomer);
    CountNone(log, InvalidPolicy);
  }

  lemma FiveRowCounts(a: seq<Finding>, b: seq<Finding>, c: seq<Finding>, d: seq<Finding>, e: seq<Finding>)
    ensures RowCount(a + b + c + d + e) == RowCount(a) + RowCount(b) + RowCount(c) + RowCount(d) + RowCount(e)
  {
    RowCountConcat(a + b + c + d, e);
    RowCountConcat(a + b + c, d);
    RowCountConcat(a + b, c);
    RowCountConcat(a, b);
  }

  lemma RootCount(roots: seq<Value>)
    ensures |RootSet(roots)| <= |roots|
    ensures RowCount(RootLog(roots)) == |roots| - |RootSet(roots)|
  {
    DistinctIff(roots, RootName);
    RepeatedOnly(ROOT_FINDING, |roots| - |RootSet(roots)|);
    RowCountAll(RootLog(roots));
  }

  lemma EntryCount(i: Input)
    ensures RowCount(EntryLog(i)) == |EntryLog(i)|
  {
    forall f | f in EntryLog(i)
      ensures f.counter == InvalidCustomer
    {
      EntryCounters(i, f);
    }
    RowCountAll(EntryLog(i));
  }

  lemma RowLogCount(i: Input, parses: string -> bool)
    ensures RowCount(RowLog(i, parses)) == |RowLog(i, parses)|
  {
    forall f | f in RowLog(i, parses)
      ensures f.counter != RelationConflict && f.counter != UniquenessConflict
    {
      RowCounters(i, parses, f);
    }
    RowCountAll(RowLog(i, parses));
  }

  lemma RelationCount(relations: seq<Value>)
    ensures RowCount(Collect(relations, RelationFinding)) == 0
  {
    forall f | f in Collect(relations, RelationFinding)
      ensures f.counter == RelationConflict
    {
      RelationCounters(relations, f);
    }
    RowCountNone(Collect(relations, RelationFinding));
  }

  lemma KeyCount(keys: seq<Value>)
    ensures RowCount(KeyLog(keys)) == 0
  {
    RepeatedOnly(KEY_FINDING, Ungrouped(keys, ScopedKeyGroup) + SharedGroups(keys, ScopedKeyGroup));
    RowCountNone(KeyLog(keys));
  }

  lemma LogRowCount(i: Input, parses: string -> bool)
    ensures |RootSet(i.customerRoots)| <= |i.customerRoots|
    ensures RowCount(Log(i, parses))
            == (|i.customerRoots| - |RootSet(i.customerRoots)|) + |EntryLog(i)| + |RowLog(i, parses)|
  {
    FiveRowCounts(RootLog(i.customerRoots), EntryLog(i), RowLog(i, parses), Collect(i.relations, RelationFinding),
                  KeyLog(i.scopedKeys));
    RootCount(i.customerRoots);
    EntryCount(i);
    RowLogCount(i, parses);
    RelationCount(i.relations);
    KeyCount(i.scopedKeys);
  }

  /** Every row, every rejected root and every rejected mapping entry is counted in
      exactly one of the five row counters. */
  lemma Conservation(i: Input, parses: string -> bool)
    ensures var r := EvaluatedInput(i, parses);
            r.mappedRows + r.unmappedRows + r.ambiguousRows + r.invalidCustomerRows + r.invalidPolicyRows
            == r.totalRows + (|i.customerRoots| - |RootSet(i.customerRoots)|) + |EntryLog(i)|
  {
    LogRowCount(i, parses);
  }

  /** The blocked rows are counted once per key of a document that failed its check. */
  lemma BlockedDocuments(i: Input, parses: string -> bool, key: string)
    ensures EvaluatedInput(i, parses).retrievalBlockedRows == |Blocked(i, parses)|
    ensures key in Blocked(i, parses) <==>
            exists v :: v in i.retainedRows && KeyOf(v) == Some(key) && IsDocument(ParseRow(v).value)
                        && HasKnownRow(v) && RowFinding(v, ContextOf(i, parses)).Some?
  {
    var c := ContextOf(i, parses);
    if key in Blocked(i, parses) {
      var v := CollectFrom(i.retainedRows, BlockJudge(c), key);
      assert BlockedKey(v, c) == Some(key);
    }
    forall v | v in i.retainedRows && KeyOf(v) == Some(key) && IsDocument(ParseRow(v).value)
               && HasKnownRow(v) && RowFinding(v, c).Some?
      ensures key in Blocked(i, parses)
    {
      CollectHas(i.retainedRows, BlockJudge(c), v);
    }
  }

  // ------------------------------------------------------ What the counters count

  function Targeting(row: Row): Value -> Option<Value> {
    m => if Targets(m, row) then Some(m) else None
  }

  /** How many mappings target the row. */
  function TargetCount(row: Row, mappings: seq<Value>): nat {
    |Collect(mappings, Targeting(row))|
  }

  /** The known rows that this many mappings target: none (0), or too many (2). */
  function RowsTargeted(i: Input, many: bool): Value -> Option<Value> {
    v =>
      if HasKnownRow(v)
         && (if many then TargetCount(ParseRow(v).value, i.approvedMappings) > 1
             else TargetCount(ParseRow(v).value, i.approvedMappings) == 0)
      then Some(v) else None
  }

  ghost function RowsMapped(i: Input, parses: string -> bool): Value -> Option<Value> {
    v => if HasKnownRow(v) && MappedOnce(ParseRow(v).value, i, parses) then Some(v) else None
  }

  /** Counting findings of one kind is counting the elements that have one. */
  lemma {:induction false} CountCollected<T>(s: seq<T>, f: T -> Option<Finding>, g: T -> Option<T>, c: Counter)
    requires forall x :: x in s ==> (f(x).Some? && f(x).value.counter == c <==> g(x).Some?)
    ensures Count(Collect(s, f), c) == |Collect(s, g)|
  {
    if s != [] {
      var init, last := s[..|s| - 1], s[|s| - 1];
      CountCollected(init, f, g, c);
      CountConcat(Collect(init, f), OneOf(f(last)), c);
      CountOne(f(last), c);
    }
  }

  lemma CountOne(o: Option<Finding>, c: Counter)
    ensures Count(OneOf(o), c) == if o.Some? && o.value.counter == c then 1 else 0
  {
    if o.Some? {
      assert OneOf(o)[..0] == [];
    }
  }

  lemma EntriesAreTargets(i: Input, v: Value)
    requires v in i.retainedRows && HasKnownRow(v)
    ensures |Entries(i.approvedMappings, RetainedKeys(i.retainedRows), RowKey(ParseRow(v).value))|
            == TargetCount(ParseRow(v).value, i.approvedMappings)
  {
    var row := ParseRow(v).value;
    KeyRetained(i.retainedRows, RowKey(row));
    forall m
      ensures EntryFor(m, RetainedKeys(i.retainedRows), RowKey(row)) == Targeting(row)(m)
    {
      EntryTargets(i, m, row);
    }
    CollectSame(i.approvedMappings, EntrySelect(RetainedKeys(i.retainedRows), RowKey(row)), Targeting(row));
  }

  lemma RowsCounted(i: Input, parses: string -> bool, many: bool)
    ensures Count(RowLog(i, parses), if many then Ambiguous else Unmapped)
            == |Collect(i.retainedRows, RowsTargeted(i, many))|
  {
    var c := ContextOf(i, parses);
    forall v | v in i.retainedRows
      ensures RowFinding(v, c).Some? && RowFinding(v, c).value.counter == (if many then Ambiguous else Unmapped)
              <==> RowsTargeted(i, many)(v).Some?
    {
      if HasKnownRow(v) {
        EntriesAreTargets(i, v);
      }
    }
    CountCollected(i.retainedRows, RowJudge(c), RowsTargeted(i, many), if many then Ambiguous else Unmapped);
  }

  lemma RootsCountNone(roots: seq<Value>, c: Counter)
    requires c != InvalidCustomer
    ensures Count(RootLog(roots), c) == 0
  {
    DistinctIff(roots, RootName);
    RepeatedOnly(ROOT_FINDING, |roots| - |RootSet(roots)|);
    CountNone(RootLog(roots), c);
  }

  lemma EntriesCountNone(i: Input, c: Counter)
    requires c != InvalidCustomer
    ensures Count(EntryLog(i), c) == 0
  {
    forall f | f in EntryLog(i)
      ensures f.counter != c
    {
      EntryCounters(i, f);
    }
    CountNone(EntryLog(i), c);
  }

  lemma RelationsCountNone(relations: seq<Value>, c: Counter)
    requires c != RelationConflict
    ensures Count(Collect(relations, RelationFinding), c) == 0
  {
    forall f | f in Collect(relations, RelationFinding)
      ensures f.counter != c
    {
      RelationCounters(relations, f);
    }
    CountNone(Collect(relations, RelationFinding), c);
  }

  lemma KeysCountNone(keys: seq<Value>, c: Counter)
    requires c != UniquenessConflict
    ensures Count(KeyLog(keys), c) == 0
  {
    RepeatedOnly(KEY_FINDING, Ungrouped(keys, ScopedKeyGroup) + SharedGroups(keys, ScopedKeyGroup));
    CountNone(KeyLog(keys), c);
  }

  /** Only the row pass counts unmapped and ambiguous rows. */
  lemma OnlyRowsCount(i: Input, parses: string -> bool, c: Counter)
    requires c == Unmapped || c == Ambiguous
    ensures Count(Log(i, parses), c) == Count(RowLog(i, parses), c)
  {
    RootsCountNone(i.customerRoots, c);
    EntriesCountNone(i, c);
    RelationsCountNone(i.relations, c);
    KeysCountNone(i.scopedKeys, c);
    FiveCounts(RootLog(i.customerRoots), EntryLog(i), RowLog(i, parses), Collect(i.relations, RelationFinding),
               KeyLog(i.scopedKeys), c);
  }

  lemma FiveCounts(a: seq<Finding>, b: seq<Finding>, d: seq<Finding>, e: seq<Finding>, g: seq<Finding>, c: Counter)
    ensures Count(a + b + d + e + g, c) == Count(a, c) + Count(b, c) + Count(d, c) + Count(e, c) + Count(g, c)
  {
    CountConcat(a + b + d + e, g, c);
    CountConcat(a + b + d, e, c);
    CountConcat(a + b, d, c);
    CountConcat(a, b, c);
  }

  /** Unmapped rows are the known rows no mapping targets, ambiguous ones those that
      more than one does. */
  lemma UntargetedAndAmbiguous(i: Input, parses: string -> bool)
    ensures EvaluatedInput(i, parses).unmappedRows == |Collect(i.retainedRows, RowsTargeted(i, false))|
    ensures EvaluatedInput(i, parses).ambiguousRows == |Collect(i.retainedRows, RowsTargeted(i, true))|
  {
    OnlyRowsCount(i, parses, Unmapped);
    OnlyRowsCount(i, parses, Ambiguous);
    RowsCounted(i, parses, false);
    RowsCounted(i, parses, true);
  }

  /** What one list collects of some elements and another of the rest. */
  lemma {:induction false} Complement<T, U, V>(s: seq<T>, f: T -> Option<U>, g: T -> Option<V>)
    requires forall x :: x in s ==> (f(x).Some? <==> g(x).None?)
    ensures |Collect(s, f)| + |Collect(s, g)| == |s|
  {
    if s != [] {
      Complement(s[..|s| - 1], f, g);
    }
  }

  /** Mapped rows are the known rows that exactly one mapping targets, with its approval. */
  lemma MappedAreSound(i: Input, parses: string -> bool)
    ensures EvaluatedInput(i, parses).mappedRows == |Collect(i.retainedRows, RowsMapped(i, parses))|
  {
    var c := ContextOf(i, parses);
    forall v | v in i.retainedRows
      ensures RowJudge(c)(v).Some? <==> RowsMapped(i, parses)(v).None?
    {
      if HasKnownRow(v) {
        RowCleanIff(i, v, parses);
      }
    }
    Complement(i.retainedRows, RowJudge(c), RowsMapped(i, parses));
  }
}
