/** What the two normalisers accept and yield, said of the fields they are given. */
module PolicyMeaning {
  import opened Prelude
  import opened Json
  import opened Texts
  import Orders
  import Policies

  /** A string with something in it that is not white space. */
  predicate HasText(v: Option<Value>) {
    v.Some? && v.value.Text? && exists i :: 0 <= i < |v.value.text| && !IsSpace(v.value.text[i])
  }

  lemma HasTextIs(v: Option<Value>)
    ensures HasText(v) <==> v.Some? && v.value.Text? && !IsBlank(v.value.text)
  {
    if v.Some? && v.value.Text? {
      BlankIff(v.value.text);
    }
  }

  predicate AllTexts(v: Option<Value>) {
    v.Some? && v.value.Array? && forall i :: 0 <= i < |v.value.elements| ==> HasText(Some(v.value.elements[i]))
  }

  predicate OtherVisibility(m: Value) {
    var v := Field(m, "visibility");
    v.Some? && v.value.Text? && v.value.text != "CUSTOMER" && v.value.text != "ORGANIZATION"
  }

  /** Both arrays hold texts only; a CUSTOMER policy lists no organization, an ORGANIZATION
      policy at least one. */
  predicate PolicyAccepted(m: Value) {
    && AllTexts(Field(m, "organizationIds")) && AllTexts(Field(m, "requiredPermissionScopes"))
    && (|| (Field(m, "visibility") == Some(Text("CUSTOMER")) && Field(m, "organizationIds").value.elements == [])
        || (Field(m, "visibility") == Some(Text("ORGANIZATION")) && Field(m, "organizationIds").value.elements != []))
  }

  lemma ArrayIs(v: Option<Value>)
    ensures Policies.CanonicalArray(v).Some? <==> AllTexts(v)
    ensures AllTexts(v) ==> (Policies.CanonicalArray(v).value == [] <==> v.value.elements == [])
  {
    if v.Some? && v.value.Array? {
      var elements := v.value.elements;
      forall i | 0 <= i < |elements|
        ensures HasText(Some(elements[i])) <==> elements[i].Text? && !IsBlank(elements[i].text)
      {
        HasTextIs(Some(elements[i]));
      }
      if Policies.AllNonBlank(elements) {
        EmptyKept(elements);
      }
    }
  }

  lemma EmptyKept(elements: seq<Value>)
    requires Policies.AllNonBlank(elements)
    ensures Policies.CanonicalArray(Some(Array(elements))).value == [] <==> elements == []
  {
    var trimmed := Policies.TrimAll(elements);
    Policies.DedupeKeeps(trimmed);
    Orders.SortPermutes(Policies.Dedupe(trimmed), Orders.LexLe);
    var sorted := Policies.CanonicalArray(Some(Array(elements))).value;
    if elements != [] {
      assert trimmed[0] in Policies.Dedupe(trimmed);
      assert trimmed[0] in multiset(Policies.Dedupe(trimmed));
      assert trimmed[0] in multiset(sorted);
    }
  }

  lemma PolicyIs(m: Value)
    requires m.Object?
    ensures Policies.NormalizeApproved(m) == Err(Policies.InvalidVisibility) <==> OtherVisibility(m)
    ensures Policies.NormalizeApproved(m).Ok? <==> PolicyAccepted(m)
  {
    ArrayIs(Field(m, "organizationIds"));
    ArrayIs(Field(m, "requiredPermissionScopes"));
  }

  lemma OtherVisibilityFails(m: Value)
    requires OtherVisibility(m)
    ensures !PolicyAccepted(m)
  {
  }

  // ------------------------------------------------------------------ What comes out

  /** The list holds the first occurrence of every element of the other, in order. */
  predicate FirstOccurrences(r: seq<string>, s: seq<string>, at: seq<nat>) {
    && |at| == |r|
    && (forall i :: 0 <= i < |r| ==> at[i] < |s| && r[i] == s[at[i]] && s[at[i]] !in s[..at[i]])
    && (forall i, j :: 0 <= i < j < |r| ==> at[i] < at[j])
    && forall k :: 0 <= k < |s| ==> s[k] in r
  }

  lemma {:induction false} DedupeIsFirst(s: seq<string>) returns (at: seq<nat>)
    ensures FirstOccurrences(Policies.Dedupe(s), s, at)
  {
    if s == [] {
      at := [];
    } else {
      var init, last := s[..|s| - 1], |s| - 1;
      at := DedupeIsFirst(init);
      Policies.DedupeKeeps(init);
      StillFirst(Policies.Dedupe(init), init, s[last], at);
      assert s == init + [s[last]];
      if s[last] !in Policies.Dedupe(init) {
        at := at + [last];
      }
    }
  }

  lemma StillFirst(r: seq<string>, s: seq<string>, x: string, at: seq<nat>)
    requires FirstOccurrences(r, s, at)
    ensures x in r ==> FirstOccurrences(r, s + [x], at)
    ensures x !in r ==> FirstOccurrences(r + [x], s + [x], at + [|s|])
  {
    forall k: nat | k < |s|
      ensures (s + [x])[..k] == s[..k] && (s + [x])[k] == s[k]
    {
    }
    assert (s + [x])[..|s|] == s;
  }

  /** The list holds the texts of the array, trimmed, each at its first occurrence. */
  ghost predicate TrimmedOnce(r: seq<string>, v: Option<Value>) {
    && AllTexts(v)
    && exists trimmed: seq<string>, at: seq<nat> ::
         && |trimmed| == |v.value.elements|
         && (forall i :: 0 <= i < |trimmed| ==> trimmed[i] == Trim(v.value.elements[i].text, IsSpace))
         && FirstOccurrences(r, trimmed, at)
  }

  lemma StringArrayIs(v: Option<Value>)
    ensures Policies.StringArray(v).Some? <==> AllTexts(v)
    ensures AllTexts(v) ==> TrimmedOnce(Policies.StringArray(v).value, v)
  {
    ArrayIs(v);
    if AllTexts(v) {
      var at := DedupeIsFirst(Policies.TrimAll(v.value.elements));
    }
  }

  /** What the runtime makes of a policy: it accepts exactly the accepted ones, and keeps
      their visibility and their arrays, trimmed and without repetitions. */
  lemma RuntimePolicyIs(m: Value)
    ensures Policies.RuntimePolicy(m).Some? <==> PolicyAccepted(m)
    ensures PolicyAccepted(m) ==>
              var p := Policies.RuntimePolicy(m).value;
              && (p.visibility == Policies.CustomerWide <==> Field(m, "visibility") == Some(Text("CUSTOMER")))
              && (p.visibility == Policies.OrganizationOnly <==> Field(m, "visibility") == Some(Text("ORGANIZATION")))
              && TrimmedOnce(p.organizationIds, Field(m, "organizationIds"))
              && TrimmedOnce(p.requiredPermissionScopes, Field(m, "requiredPermissionScopes"))
  {
    StringArrayIs(Field(m, "organizationIds"));
    StringArrayIs(Field(m, "requiredPermissionScopes"));
    if m.Object? {
      PolicyIs(m);
      Policies.SameAcceptance(m);
    }
  }
}
