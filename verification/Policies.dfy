/**
 Knowledge access policies: the migration script's normaliser, the runtime's
 normaliser, and the retrieval query that reads what they stored.
 */
module Policies {
  import opened Prelude
  import opened Json
  import opened Texts
  import opened Orders

  datatype Visibility = CustomerWide | OrganizationOnly

  datatype Policy = Policy(
    visibility: Visibility, organizationIds: seq<string>, requiredPermissionScopes: seq<string>)

  datatype PolicyError = InvalidVisibility | InvalidPolicy

  function VisibilityOf(v: Option<Value>): Option<Visibility> {
    if v == Some(Text("CUSTOMER")) then Some(CustomerWide)
    else if v == Some(Text("ORGANIZATION")) then Some(OrganizationOnly)
    else None
  }

  /** A CUSTOMER policy lists no organization, an ORGANIZATION policy at least one. */
  predicate VisibilityRule(visibility: Visibility, organizationIds: seq<string>) {
    visibility == CustomerWide <==> organizationIds == []
  }

  // --------------------------------------------------------- Arrays of strings

  predicate AllNonBlank(elements: seq<Value>) {
    forall i :: 0 <= i < |elements| ==> elements[i].Text? && !IsBlank(elements[i].text)
  }

  function TrimAll(elements: seq<Value>): (r: seq<string>)
    requires AllNonBlank(elements)
    ensures |r| == |elements|
    ensures forall i :: 0 <= i < |r| ==> r[i] == Trim(elements[i].text, IsSpace)
  {
    seq(|elements|, i requires 0 <= i < |elements| => Trim(elements[i].text, IsSpace))
  }

  /** `[...new Set(s)]`: the first occurrence of every element, in order. */
  function Dedupe(s: seq<string>): seq<string> {
    if s == [] then []
    else
      var d := Dedupe(s[..|s| - 1]);
      if s[|s| - 1] in d then d else d + [s[|s| - 1]]
  }

  predicate NoDuplicates(s: seq<string>) {
    forall i, j :: 0 <= i < j < |s| ==> s[i] != s[j]
  }

  /** Trimmed, non-blank and free of duplicates. */
  predicate Canonical(s: seq<string>) {
    && NoDuplicates(s)
    && forall i :: 0 <= i < |s| ==> s[i] != [] && Trimmed(s[i], IsSpace)
  }

  predicate CanonicalPolicy(p: Policy) {
    && VisibilityRule(p.visibility, p.organizationIds)
    && Canonical(p.organizationIds) && Canonical(p.requiredPermissionScopes)
  }

  /** One more non-blank element extends the result unless it was seen. */
  lemma DedupeAppend(elements: seq<Value>, e: Value)
    requires AllNonBlank(elements) && e.Text? && !IsBlank(e.text)
    ensures AllNonBlank(elements + [e])
    ensures var d := Dedupe(TrimAll(elements));
            var x := Trim(e.text, IsSpace);
            Dedupe(TrimAll(elements + [e])) == if x in d then d else d + [x]
  {
    var whole := elements + [e];
    assert whole[..|elements|] == elements;
    assert forall i :: 0 <= i < |elements| ==> whole[i] == elements[i];
    assert TrimAll(whole) == TrimAll(elements) + [Trim(e.text, IsSpace)];
    assert TrimAll(whole)[..|elements|] == TrimAll(elements);
  }

  lemma {:induction false} DedupeKeeps(s: seq<string>)
    ensures NoDuplicates(Dedupe(s))
    ensures forall x :: x in Dedupe(s) <==> x in s
  {
    if s != [] {
      DedupeKeeps(s[..|s| - 1]);
      assert s == s[..|s| - 1] + [s[|s| - 1]];
    }
  }

  lemma {:induction false} DedupeOfDistinct(s: seq<string>)
    requires NoDuplicates(s)
    ensures Dedupe(s) == s
  {
    if s != [] {
      DedupeOfDistinct(s[..|s| - 1]);
      assert s == s[..|s| - 1] + [s[|s| - 1]];
    }
  }

  // -------------------------------------------------- The script's normaliser

  function CanonicalArray(v: Option<Value>): Option<seq<string>> {
    if v.None? || !v.value.Array? || !AllNonBlank(v.value.elements) then None
    else Some(Sort(Dedupe(TrimAll(v.value.elements)), LexLe))
  }

  function NormalizeApproved(input: Value): Result<Policy, PolicyError> {
    if !input.Object? then Err(InvalidPolicy)
    else
      var raw := Field(input, "visibility");
      var visibility := VisibilityOf(raw);
      if visibility.None? then
        if raw.Some? && raw.value.Text? then Err(InvalidVisibility) else Err(InvalidPolicy)
      else
        var organizationIds := CanonicalArray(Field(input, "organizationIds"));
        var scopes := CanonicalArray(Field(input, "requiredPermissionScopes"));
        if organizationIds.None? || scopes.None? then Err(InvalidPolicy)
        else if visibility.value == CustomerWide && |organizationIds.value| != 0 then Err(InvalidPolicy)
        else if visibility.value == OrganizationOnly && |organizationIds.value| == 0 then Err(InvalidPolicy)
        else Ok(Policy(visibility.value, organizationIds.value, scopes.value))
  }

  predicate IsCanonicalArray(elements: seq<Value>) {
    var normalized := CanonicalArray(Some(Array(elements)));
    && normalized.Some?
    && |elements| == |normalized.value|
    && forall i :: 0 <= i < |elements| ==> elements[i] == Text(normalized.value[i])
  }

  // ------------------------------------------------- The runtime's normaliser

  /** What the runtime's loop computes; None is its exception. */
  function StringArray(v: Option<Value>): Option<seq<string>> {
    if v.None? || !v.value.Array? || !AllNonBlank(v.value.elements) then None
    else Some(Dedupe(TrimAll(v.value.elements)))
  }

  method NormalizeStringArray(v: Option<Value>) returns (r: Option<seq<string>>)
    ensures r == StringArray(v)
  {
    if v.None? || !v.value.Array? {
      return None;
    }
    var elements := v.value.elements;
    var seen: set<string> := {};
    var normalized: seq<string> := [];
    for i := 0 to |elements|
      invariant AllNonBlank(elements[..i])
      invariant normalized == Dedupe(TrimAll(elements[..i]))
      invariant forall x :: x in seen <==> x in normalized
    {
      if !elements[i].Text? {
        return None;
      }
      var trimmed := Trim(elements[i].text, IsSpace);
      if |trimmed| == 0 {
        return None;
      }
      assert elements[..i + 1] == elements[..i] + [elements[i]];
      DedupeAppend(elements[..i], elements[i]);
      if trimmed !in seen {
        seen := seen + {trimmed};
        normalized := normalized + [trimmed];
      }
    }
    assert elements[..|elements|] == elements;
    return Some(normalized);
  }

  function RuntimePolicy(input: Value): Option<Policy> {
    var visibility := VisibilityOf(Field(input, "visibility"));
    var organizationIds := StringArray(Field(input, "organizationIds"));
    var scopes := StringArray(Field(input, "requiredPermissionScopes"));
    if visibility.None? || organizationIds.None? || scopes.None? then None
    else if visibility.value == CustomerWide && |organizationIds.value| != 0 then None
    else if visibility.value == OrganizationOnly && |organizationIds.value| == 0 then None
    else Some(Policy(visibility.value, organizationIds.value, scopes.value))
  }

  method NormalizeAccessPolicy(input: Value) returns (r: Option<Policy>)
    ensures r == RuntimePolicy(input)
  {
    var visibility := VisibilityOf(Field(input, "visibility"));
    if visibility.None? {
      return None;
    }
    var organizationIds := NormalizeStringArray(Field(input, "organizationIds"));
    if organizationIds.None? {
      return None;
    }
    var scopes := NormalizeStringArray(Field(input, "requiredPermissionScopes"));
    if scopes.None? {
      return None;
    }
    if visibility.value == CustomerWide && |organizationIds.value| != 0 {
      return None;
    }
    if visibility.value == OrganizationOnly && |organizationIds.value| == 0 {
      return None;
    }
    return Some(Policy(visibility.value, organizationIds.value, scopes.value));
  }

  predicate MatchesExactly(v: Option<Value>, normalized: seq<string>) {
    && v.Some? && v.value.Array?
    && |v.value.elements| == |normalized|
    && forall i :: 0 <= i < |normalized| ==> v.value.elements[i] == Text(normalized[i])
  }

  predicate IsValidNormalized(input: Value) {
    var normalized := RuntimePolicy(input);
    && normalized.Some?
    && MatchesExactly(Field(input, "organizationIds"), normalized.value.organizationIds)
    && MatchesExactly(Field(input, "requiredPermissionScopes"), normalized.value.requiredPermissionScopes)
  }

  // ------------------------------------------------------- The retrieval filter

  /** SQL `btrim`: strips blanks only. */
  function Btrim(s: string): string {
    Trim(s, (c: char) => c == ' ')
  }

  /** The query's conditions on one array column: every value non-blank and equal to
      its btrim, and the cardinality equal to the number of distinct values. */
  predicate ColumnAccepted(s: seq<string>) {
    && (forall i :: 0 <= i < |s| ==> Btrim(s[i]) != [] && s[i] == Btrim(s[i]))
    && |s| == |set x | x in s|
  }

  /** Whether the query lets a caller read a document with this stored policy. */
  predicate Readable(p: Policy, organization: string, permissions: set<string>) {
    && ColumnAccepted(p.organizationIds)
    && ColumnAccepted(p.requiredPermissionScopes)
    && (match p.visibility
        case CustomerWide => |p.organizationIds| == 0
        case OrganizationOnly => |p.organizationIds| > 0 && organization in p.organizationIds)
    && forall x :: x in p.requiredPermissionScopes ==> x in permissions
  }

  // ---------------------------------------------------------------- Properties

  lemma StringArrayIsCanonical(v: Option<Value>)
    requires StringArray(v).Some?
    ensures Canonical(StringArray(v).value)
  {
    var elements := v.value.elements;
    var trimmed := TrimAll(elements);
    DedupeKeeps(trimmed);
    forall i | 0 <= i < |trimmed|
      ensures trimmed[i] != [] && Trimmed(trimmed[i], IsSpace)
    {
      TrimIsTrimmed(elements[i].text, IsSpace);
    }
    forall i | 0 <= i < |Dedupe(trimmed)|
      ensures Dedupe(trimmed)[i] != [] && Trimmed(Dedupe(trimmed)[i], IsSpace)
    {
      assert Dedupe(trimmed)[i] in trimmed;
    }
  }

  lemma CanonicalPermutes(a: seq<string>, b: seq<string>)
    requires Canonical(a) && multiset(a) == multiset(b)
    ensures Canonical(b)
  {
    forall i, j | 0 <= i < j < |b|
      ensures b[i] != b[j]
    {
      if b[i] == b[j] {
        OccursTwice(b, i, j);
        OccursOnce(a, b[i]);
      }
    }
    forall i | 0 <= i < |b|
      ensures b[i] != [] && Trimmed(b[i], IsSpace)
    {
      assert b[i] in multiset(b);
      assert b[i] in a;
    }
  }

  lemma OccursTwice(s: seq<string>, i: nat, j: nat)
    requires i < j < |s| && s[i] == s[j]
    ensures multiset(s)[s[i]] >= 2
  {
    assert s == s[..j] + [s[j]] + s[j + 1..];
    assert s[i] in s[..j];
    assert multiset(s) == multiset(s[..j]) + multiset{s[j]} + multiset(s[j + 1..]);
  }

  lemma {:induction false} OccursOnce(s: seq<string>, x: string)
    requires NoDuplicates(s)
    ensures multiset(s)[x] <= 1
  {
    if s != [] {
      OccursOnce(s[1..], x);
      assert s == [s[0]] + s[1..];
      if s[0] == x {
        assert x !in s[1..];
      }
    }
  }

  /** Both normalisers accept exactly the same inputs. */
  lemma SameAcceptance(input: Value)
    ensures NormalizeApproved(input).Ok? <==> RuntimePolicy(input).Some?
  {
    var organizationIds := StringArray(Field(input, "organizationIds"));
    if organizationIds.Some? {
      SortStrings(organizationIds.value);
    }
  }

  /** The script's arrays are the sorted permutations of the runtime's. */
  lemma ScriptSortsRuntime(input: Value)
    requires RuntimePolicy(input).Some?
    ensures NormalizeApproved(input).Ok?
    ensures var script, runtime := NormalizeApproved(input).value, RuntimePolicy(input).value;
            && script.visibility == runtime.visibility
            && SortedBy(script.organizationIds, LexLe)
            && SortedBy(script.requiredPermissionScopes, LexLe)
            && multiset(script.organizationIds) == multiset(runtime.organizationIds)
            && multiset(script.requiredPermissionScopes) == multiset(runtime.requiredPermissionScopes)
  {
    SameAcceptance(input);
    SortStrings(RuntimePolicy(input).value.organizationIds);
    SortStrings(RuntimePolicy(input).value.requiredPermissionScopes);
  }

  /** Every accepted policy comes out canonical from both normalisers. */
  lemma AcceptedAreCanonical(input: Value)
    requires RuntimePolicy(input).Some?
    ensures CanonicalPolicy(RuntimePolicy(input).value)
    ensures NormalizeApproved(input).Ok? && CanonicalPolicy(NormalizeApproved(input).value)
  {
    StringArrayIsCanonical(Field(input, "organizationIds"));
    StringArrayIsCanonical(Field(input, "requiredPermissionScopes"));
    ScriptSortsRuntime(input);
    var script, runtime := NormalizeApproved(input).value, RuntimePolicy(input).value;
    CanonicalPermutes(runtime.organizationIds, script.organizationIds);
    CanonicalPermutes(runtime.requiredPermissionScopes, script.requiredPermissionScopes);
  }

  /** A policy written back as JSON. */
  function ToValue(p: Policy): Value {
    Object(map[
      "visibility" := Text(if p.visibility == CustomerWide then "CUSTOMER" else "ORGANIZATION"),
      "organizationIds" := Array(Quoted(p.organizationIds)),
      "requiredPermissionScopes" := Array(Quoted(p.requiredPermissionScopes))])
  }

  function Quoted(s: seq<string>): (r: seq<Value>)
    ensures |r| == |s|
    ensures forall i :: 0 <= i < |s| ==> r[i] == Text(s[i])
  {
    seq(|s|, i requires 0 <= i < |s| => Text(s[i]))
  }

  lemma FieldsOfValue(p: Policy)
    ensures VisibilityOf(Field(ToValue(p), "visibility")) == Some(p.visibility)
    ensures Field(ToValue(p), "organizationIds") == Some(Array(Quoted(p.organizationIds)))
    ensures Field(ToValue(p), "requiredPermissionScopes") == Some(Array(Quoted(p.requiredPermissionScopes)))
  {
    assert |"visibility"| == 10 && |"organizationIds"| == 15 && |"requiredPermissionScopes"| == 24;
    assert |"CUSTOMER"| == 8 && |"ORGANIZATION"| == 12;
  }

  lemma SameTexts(a: seq<string>, b: seq<string>)
    requires |a| == |b| && forall i :: 0 <= i < |a| ==> a[i] == b[i]
    ensures a == b
  {
  }

  lemma QuotedCanonical(s: seq<string>)
    requires Canonical(s)
    ensures StringArray(Some(Array(Quoted(s)))) == Some(s)
  {
    var q := Quoted(s);
    forall i | 0 <= i < |s|
      ensures q[i].Text? && Trim(q[i].text, IsSpace) == s[i]
    {
      TrimKeepsTrimmed(s[i], IsSpace);
    }
    assert AllNonBlank(q);
    SameTexts(TrimAll(q), s);
    DedupeOfDistinct(s);
  }

  /** Normalising a canonical policy again changes nothing, so both are idempotent. */
  lemma NormaliseTwice(p: Policy)
    requires CanonicalPolicy(p)
    ensures RuntimePolicy(ToValue(p)) == Some(p)
    ensures SortedBy(p.organizationIds, LexLe) && SortedBy(p.requiredPermissionScopes, LexLe) ==>
      NormalizeApproved(ToValue(p)) == Ok(p)
  {
    FieldsOfValue(p);
    QuotedCanonical(p.organizationIds);
    QuotedCanonical(p.requiredPermissionScopes);
    if SortedBy(p.organizationIds, LexLe) && SortedBy(p.requiredPermissionScopes, LexLe) {
      SortOfSortedStrings(p.organizationIds);
      SortOfSortedStrings(p.requiredPermissionScopes);
    }
  }

  lemma Idempotent(input: Value)
    requires RuntimePolicy(input).Some?
    ensures RuntimePolicy(ToValue(RuntimePolicy(input).value)) == RuntimePolicy(input)
    ensures NormalizeApproved(input).Ok?
    ensures NormalizeApproved(ToValue(NormalizeApproved(input).value)) == NormalizeApproved(input)
  {
    AcceptedAreCanonical(input);
    ScriptSortsRuntime(input);
    NormaliseTwice(RuntimePolicy(input).value);
    NormaliseTwice(NormalizeApproved(input).value);
  }

  /** The runtime's accepted fixed points are exactly the canonical policies. */
  lemma FixedPointsAreCanonical(p: Policy)
    ensures IsValidNormalized(ToValue(p)) <==> CanonicalPolicy(p)
  {
    FieldsOfValue(p);
    if CanonicalPolicy(p) {
      NormaliseTwice(p);
    }
    if IsValidNormalized(ToValue(p)) {
      AcceptedAreCanonical(ToValue(p));
      var q := RuntimePolicy(ToValue(p)).value;
      assert forall i :: 0 <= i < |q.organizationIds| ==> Quoted(p.organizationIds)[i] == Text(q.organizationIds[i]);
      assert q.organizationIds == p.organizationIds;
      assert forall i :: 0 <= i < |q.requiredPermissionScopes| ==>
        Quoted(p.requiredPermissionScopes)[i] == Text(q.requiredPermissionScopes[i]);
      assert q.requiredPermissionScopes == p.requiredPermissionScopes;
    }
  }

  /** The strings of an array that holds nothing else. */
  function Unquoted(elements: seq<Value>): (s: seq<string>)
    requires forall v :: v in elements ==> v.Text?
    ensures Quoted(s) == elements
  {
    var s := seq(|elements|, i requires 0 <= i < |elements| => elements[i].text);
    assert forall i :: 0 <= i < |s| ==> Quoted(s)[i] == elements[i];
    s
  }

  lemma QuotedCanonicalIff(s: seq<string>)
    ensures IsCanonicalArray(Quoted(s)) <==> Canonical(s) && SortedBy(s, LexLe)
  {
    if Canonical(s) && SortedBy(s, LexLe) {
      QuotedCanonical(s);
      SortOfSortedStrings(s);
    }
    if IsCanonicalArray(Quoted(s)) {
      var column := Some(Array(Quoted(s)));
      var normalized := CanonicalArray(column).value;
      assert forall i :: 0 <= i < |s| ==> Quoted(s)[i] == Text(normalized[i]);
      assert s == normalized;
      StringArrayIsCanonical(column);
      SortStrings(StringArray(column).value);
      CanonicalPermutes(StringArray(column).value, s);
    }
  }

  /** The script calls an array of any JSON values canonical exactly when it holds only
      strings, and these are canonical and sorted. */
  lemma ScriptCanonicalIff(elements: seq<Value>)
    ensures IsCanonicalArray(elements) <==>
              (forall v :: v in elements ==> v.Text?) && Canonical(Unquoted(elements)) && SortedBy(Unquoted(elements), LexLe)
  {
    if forall v :: v in elements ==> v.Text? {
      QuotedCanonicalIff(Unquoted(elements));
    } else {
      var v :| v in elements && !v.Text?;
      assert !AllNonBlank(elements);
    }
  }

  lemma {:induction false} DistinctCount(s: seq<string>)
    requires NoDuplicates(s)
    ensures |set x | x in s| == |s|
  {
    if s != [] {
      DistinctCount(s[1..]);
      assert (set x | x in s) == (set x | x in s[1..]) + {s[0]};
    }
  }

  /** Canonical columns pass the retrieval query's conditions. */
  lemma CanonicalColumnAccepted(s: seq<string>)
    requires Canonical(s)
    ensures ColumnAccepted(s)
  {
    DistinctCount(s);
    forall i | 0 <= i < |s|
      ensures Btrim(s[i]) == s[i]
    {
      assert IsSpace(' ');
      assert Trimmed(s[i], (c: char) => c == ' ');
      TrimKeepsTrimmed(s[i], (c: char) => c == ' ');
    }
  }

  /** Whichever normaliser stored the policy, the query reads it, and for the same
      callers: those of a listed organization who hold every required scope. */
  lemma SameReaders(input: Value, organization: string, permissions: set<string>)
    requires RuntimePolicy(input).Some?
    ensures NormalizeApproved(input).Ok?
    ensures var script, runtime := NormalizeApproved(input).value, RuntimePolicy(input).value;
            && (Readable(script, organization, permissions) <==> Readable(runtime, organization, permissions))
            && (Readable(runtime, organization, permissions) <==>
                (runtime.visibility == OrganizationOnly ==> organization in runtime.organizationIds)
                && forall x :: x in runtime.requiredPermissionScopes ==> x in permissions)
  {
    AcceptedAreCanonical(input);
    ScriptSortsRuntime(input);
    var script, runtime := NormalizeApproved(input).value, RuntimePolicy(input).value;
    CanonicalColumnAccepted(script.organizationIds);
    CanonicalColumnAccepted(script.requiredPermissionScopes);
    CanonicalColumnAccepted(runtime.organizationIds);
    CanonicalColumnAccepted(runtime.requiredPermissionScopes);
    SameMembers(script.organizationIds, runtime.organizationIds);
    SameMembers(script.requiredPermissionScopes, runtime.requiredPermissionScopes);
  }

  lemma SameMembers(a: seq<string>, b: seq<string>)
    requires multiset(a) == multiset(b)
    ensures |a| == |b| && forall x :: x in a <==> x in b
  {
    assert |a| == |multiset(a)| && |b| == |multiset(b)|;
    assert forall x :: x in a <==> x in multiset(a);
    assert forall x :: x in b <==> x in multiset(b);
  }
}
