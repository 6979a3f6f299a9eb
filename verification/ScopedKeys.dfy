/**
 Which scoped keys share a group. A group is the key's parts joined by NULs, so it tells
 two keys apart only as far as the text can be cut in one way.
 */
module ScopedKeys {
  import opened Prelude
  import opened Json
  import opened Texts
  import opened Preflight
  import opened PreflightTheorems

  /** What a scoped key is unique in. */
  datatype Scoped =
    | Knowledge(customer: string, sourceKey: string, version: string)
    | Idempotency(recordType: string, customer: string, key: string)

  predicate Accepted(s: Scoped) {
    match s
    case Knowledge(customer, source, version) => !IsBlank(customer) && !IsBlank(source) && !IsBlank(version)
    case Idempotency(t, customer, key) => IdempotentType(Some(Text(t))) && !IsBlank(customer) && !IsBlank(key)
  }

  function GroupText(s: Scoped): string {
    match s
    case Knowledge(customer, source, version) => Joined("knowledge", customer, source, version)
    case Idempotency(t, customer, key) => Joined("idempotency", t, customer, key)
  }

  /** The parts of a key that belongs to a group. */
  function IdentityOf(key: Value): Scoped
    requires ScopedKeyGroup(key).Some?
  {
    var customer := NonBlank(Field(key, "customerId")).value;
    if Field(key, "kind") == Some(Text("knowledge-source-version"))
       && NonBlank(Field(key, "sourceKey")).Some? && NonBlank(Field(key, "version")).Some? then
      Knowledge(customer, NonBlank(Field(key, "sourceKey")).value, NonBlank(Field(key, "version")).value)
    else
      Idempotency(Field(key, "recordType").value.text, customer, NonBlank(Field(key, "idempotencyKey")).value)
  }

  lemma GroupOfIdentity(key: Value)
    requires ScopedKeyGroup(key).Some?
    ensures Accepted(IdentityOf(key)) && ScopedKeyGroup(key) == Some(GroupText(IdentityOf(key)))
  {
  }

  /** A key with this identity. */
  function KeyFor(s: Scoped): Value {
    match s
    case Knowledge(customer, source, version) =>
      Object(map["kind" := Text("knowledge-source-version"), "customerId" := Text(customer),
                 "sourceKey" := Text(source), "version" := Text(version)])
    case Idempotency(t, customer, key) =>
      Object(map["kind" := Text("idempotency"), "customerId" := Text(customer),
                 "recordType" := Text(t), "idempotencyKey" := Text(key)])
  }

  lemma KeyHasIdentity(s: Scoped)
    requires Accepted(s)
    ensures ScopedKeyGroup(KeyFor(s)) == Some(GroupText(s)) && IdentityOf(KeyFor(s)) == s
  {
    match s
    case Knowledge(customer, source, version) => KnowledgeKeyIs(customer, source, version);
    case Idempotency(t, customer, key) => IdempotencyKeyIs(t, customer, key);
  }

  lemma KnowledgeKeyIs(customer: string, source: string, version: string)
    requires Accepted(Knowledge(customer, source, version))
    ensures var s := Knowledge(customer, source, version);
            ScopedKeyGroup(KeyFor(s)) == Some(GroupText(s)) && IdentityOf(KeyFor(s)) == s
  {
  }

  lemma IdempotencyKeyIs(t: string, customer: string, key: string)
    requires Accepted(Idempotency(t, customer, key))
    ensures var s := Idempotency(t, customer, key);
            ScopedKeyGroup(KeyFor(s)) == Some(GroupText(s)) && IdentityOf(KeyFor(s)) == s
  {
  }

  // ------------------------------------------------------------------ Cutting a pair

  function Pair(a: string, b: string): string {
    a + ['\0'] + b
  }

  lemma PartIsBlank(before: string, part: string, after: string)
    requires IsBlank(before + part + after)
    ensures IsBlank(part)
  {
    BlankIff(before + part + after);
    BlankIff(part);
    assert forall i :: 0 <= i < |part| ==> (before + part + after)[|before| + i] == part[i];
  }

  lemma NulIsNotBlank(s: string)
    requires '\0' in s
    ensures !IsBlank(s)
  {
    BlankIff(s);
  }

  /** Some NUL has a text before it that is not blank. */
  predicate AfterText(s: string) {
    exists i :: 0 <= i < |s| && s[i] == '\0' && !IsBlank(s[..i])
  }

  /** Some NUL has a text after it that is not blank. */
  predicate BeforeText(s: string) {
    exists i :: 0 <= i < |s| && s[i] == '\0' && !IsBlank(s[i + 1..])
  }

  /** The pair may be cut elsewhere with no blank part. */
  predicate LoosePair(a: string, b: string) {
    AfterText(a) || BeforeText(b)
  }

  lemma EarlierCut(a: string, b: string, c: string, d: string)
    requires Pair(a, b) == Pair(c, d) && |c| < |a| && !IsBlank(c)
    ensures AfterText(a)
  {
    var t := Pair(a, b);
    assert a[|c|] == t[|c|] == '\0' && a[..|c|] == t[..|c|] == c;
  }

  lemma LaterCut(a: string, b: string, c: string, d: string)
    requires Pair(a, b) == Pair(c, d) && |c| > |a| && !IsBlank(d)
    ensures BeforeText(b)
  {
    var t, i := Pair(a, b), |c| - |a| - 1;
    assert b == t[|a| + 1..] && d == t[|c| + 1..];
    assert b[i] == t[|c|] == '\0' && b[i + 1..] == d;
  }

  lemma SameCut(a: string, b: string, c: string, d: string)
    requires Pair(a, b) == Pair(c, d) && |c| == |a|
    ensures a == c && b == d
  {
    var t := Pair(a, b);
    assert a == t[..|a|] == c && b == t[|a| + 1..] == d;
  }

  lemma PairLoose(a: string, b: string, c: string, d: string)
    requires Pair(a, b) == Pair(c, d) && (a != c || b != d) && !IsBlank(c) && !IsBlank(d)
    ensures LoosePair(a, b)
  {
    if |c| < |a| {
      EarlierCut(a, b, c, d);
    } else if |c| > |a| {
      LaterCut(a, b, c, d);
    } else {
      SameCut(a, b, c, d);
    }
  }

  lemma CutBefore(a: string, b: string, i: nat)
    requires i < |a| && a[i] == '\0'
    ensures Pair(a, b) == Pair(a[..i], Pair(a[i + 1..], b))
    ensures a[..i] != a && Pair(a[i + 1..], b) != b && !IsBlank(Pair(a[i + 1..], b))
  {
    var rest := a[i + 1..];
    assert a == a[..i] + ['\0'] + rest;
    PairAssociates(a[..i], rest, b);
    assert Pair(rest, b)[|rest|] == '\0';
    NulIsNotBlank(Pair(rest, b));
  }

  lemma CutBehind(a: string, b: string, i: nat)
    requires i < |b| && b[i] == '\0'
    ensures Pair(a, b) == Pair(Pair(a, b[..i]), b[i + 1..])
    ensures Pair(a, b[..i]) != a && b[i + 1..] != b && !IsBlank(Pair(a, b[..i]))
  {
    var start := b[..i];
    assert b == start + ['\0'] + b[i + 1..];
    PairAssociates(a, start, b[i + 1..]);
    assert Pair(a, start)[|a|] == '\0';
    NulIsNotBlank(Pair(a, start));
  }

  lemma PairOther(a: string, b: string) returns (c: string, d: string)
    requires LoosePair(a, b) && !IsBlank(a) && !IsBlank(b)
    ensures Pair(a, b) == Pair(c, d) && a != c && b != d && !IsBlank(c) && !IsBlank(d)
  {
    if AfterText(a) {
      var i :| 0 <= i < |a| && a[i] == '\0' && !IsBlank(a[..i]);
      CutBefore(a, b, i);
      c, d := a[..i], Pair(a[i + 1..], b);
    } else {
      var i :| 0 <= i < |b| && b[i] == '\0' && !IsBlank(b[i + 1..]);
      CutBehind(a, b, i);
      c, d := Pair(a, b[..i]), b[i + 1..];
    }
  }

  // ---------------------------------------------------------------- Cutting a triple

  lemma PairAssociates(a: string, b: string, c: string)
    ensures Pair(a, Pair(b, c)) == Pair(Pair(a, b), c)
  {
  }

  lemma TripleLoose(a: string, b: string, c: string, p: string, q: string, r: string)
    requires Pair(a, Pair(b, c)) == Pair(p, Pair(q, r)) && (a != p || b != q || c != r)
    requires !IsBlank(p) && !IsBlank(q) && !IsBlank(r)
    ensures LoosePair(a, b) || LoosePair(b, c)
  {
    PairAssociates(a, b, c);
    PairAssociates(p, q, r);
    if |p| < |a| {
      EarlierCut(a, Pair(b, c), p, Pair(q, r));
    } else if |p| == |a| {
      SameCut(a, Pair(b, c), p, Pair(q, r));
      PairLoose(b, c, q, r);
    } else if |Pair(p, q)| > |Pair(a, b)| {
      LaterCut(Pair(a, b), c, Pair(p, q), r);
    } else if |Pair(p, q)| == |Pair(a, b)| {
      SameCut(Pair(a, b), c, Pair(p, q), r);
      LaterCut(a, b, p, q);
    } else {
      MiddleCut(a, b, c, p, q, r);
    }
  }

  /** The whole second part of the other cut lies inside the first cut's. */
  lemma MiddleCut(a: string, b: string, c: string, p: string, q: string, r: string)
    requires Pair(a, Pair(b, c)) == Pair(p, Pair(q, r)) && |a| < |p| && |p| + |q| < |a| + |b| && !IsBlank(q)
    ensures BeforeText(b)
  {
    var t, i := Pair(a, Pair(b, c)), |p| - |a| - 1;
    var rest := b[i + 1 + |q|..];
    assert b == t[|a| + 1..|a| + 1 + |b|];
    assert q == t[|p| + 1..|p| + 1 + |q|];
    assert b[i] == t[|p|] == '\0';
    assert b[i + 1..] == [] + q + rest;
    if IsBlank(b[i + 1..]) {
      PartIsBlank([], q, rest);
    }
  }

  lemma TripleOther(a: string, b: string, c: string) returns (p: string, q: string, r: string)
    requires LoosePair(a, b) || LoosePair(b, c)
    requires !IsBlank(a) && !IsBlank(b) && !IsBlank(c)
    ensures Pair(a, Pair(b, c)) == Pair(p, Pair(q, r)) && b != q
    ensures !IsBlank(p) && !IsBlank(q) && !IsBlank(r)
  {
    if LoosePair(a, b) {
      p, q := PairOther(a, b);
      r := c;
      PairAssociates(a, b, c);
      PairAssociates(p, q, r);
    } else {
      p := a;
      q, r := PairOther(b, c);
    }
  }

  // -------------------------------------------------------------------- The condition

  /** One of the joints that are not fixed by the kind of the key may be elsewhere. */
  predicate Loose(s: Scoped) {
    match s
    case Knowledge(customer, source, version) => LoosePair(customer, source) || LoosePair(source, version)
    case Idempotency(_, customer, key) => LoosePair(customer, key)
  }

  function Prefix(s: Scoped): string {
    if s.Knowledge? then "knowledge" else "idempotency"
  }

  function Rest(s: Scoped): string {
    match s
    case Knowledge(customer, source, version) => Pair(customer, Pair(source, version))
    case Idempotency(t, customer, key) => Pair(t, Pair(customer, key))
  }

  lemma GroupTextIs(s: Scoped)
    ensures GroupText(s) == Pair(Prefix(s), Rest(s)) && '\0' !in Prefix(s)
  {
  }

  lemma TypeNoNul(s: Scoped)
    requires s.Idempotency? && Accepted(s)
    ensures '\0' !in s.recordType
  {
  }

  /** Keys in one group are of the same kind. */
  lemma SameKind(s: Scoped, other: Scoped)
    requires GroupText(s) == GroupText(other)
    ensures s.Knowledge? == other.Knowledge? && Rest(s) == Rest(other)
  {
    GroupTextIs(s);
    GroupTextIs(other);
    CutAtNul(Prefix(s), Rest(s), Prefix(other), Rest(other));
    assert |Prefix(s)| == |Prefix(other)|;
  }

  lemma SharedIsLoose(s: Scoped, other: Scoped)
    requires Accepted(s) && Accepted(other) && s != other && GroupText(s) == GroupText(other)
    ensures Loose(s)
  {
    SameKind(s, other);
    if s.Knowledge? {
      TripleLoose(s.customer, s.sourceKey, s.version, other.customer, other.sourceKey, other.version);
    } else {
      TypeNoNul(s);
      TypeNoNul(other);
      CutAtNul(s.recordType, Pair(s.customer, s.key), other.recordType, Pair(other.customer, other.key));
      PairLoose(s.customer, s.key, other.customer, other.key);
    }
  }

  lemma LooseIsShared(s: Scoped) returns (other: Scoped)
    requires Accepted(s) && Loose(s)
    ensures Accepted(other) && other != s && GroupText(other) == GroupText(s)
  {
    if s.Knowledge? {
      var p, q, r := TripleOther(s.customer, s.sourceKey, s.version);
      other := Knowledge(p, q, r);
    } else {
      var p, q := PairOther(s.customer, s.key);
      other := Idempotency(s.recordType, p, q);
    }
    GroupTextIs(s);
    GroupTextIs(other);
  }

  /** A key shares its group with a key of another identity exactly when it is loose: a NUL
      inside a part could be the joint instead and leave no part blank. */
  lemma SharedIff(key: Value)
    requires ScopedKeyGroup(key).Some?
    ensures (exists other :: ScopedKeyGroup(other) == ScopedKeyGroup(key) && IdentityOf(other) != IdentityOf(key))
            <==> Loose(IdentityOf(key))
  {
    var s := IdentityOf(key);
    GroupOfIdentity(key);
    if Loose(s) {
      var other := LooseIsShared(s);
      KeyHasIdentity(other);
      assert ScopedKeyGroup(KeyFor(other)) == ScopedKeyGroup(key) && IdentityOf(KeyFor(other)) != s;
    }
    forall other | ScopedKeyGroup(other) == ScopedKeyGroup(key) && IdentityOf(other) != s
      ensures Loose(s)
    {
      GroupOfIdentity(other);
      SharedIsLoose(s, IdentityOf(other));
    }
  }

  /** No NUL in a part that another follows. */
  predicate Plain(s: Scoped) {
    match s
    case Knowledge(customer, source, _) => '\0' !in customer && '\0' !in source
    case Idempotency(_, customer, _) => '\0' !in customer
  }

  /** Two plain keys in one group have the same identity. */
  lemma GroupInjective(a: Value, b: Value)
    requires ScopedKeyGroup(a).Some? && ScopedKeyGroup(a) == ScopedKeyGroup(b)
    requires Plain(IdentityOf(a)) && Plain(IdentityOf(b))
    ensures IdentityOf(a) == IdentityOf(b)
  {
    GroupOfIdentity(a);
    GroupOfIdentity(b);
    var s, t := IdentityOf(a), IdentityOf(b);
    SameKind(s, t);
    if s.Knowledge? {
      CutAtNul(s.customer, Pair(s.sourceKey, s.version), t.customer, Pair(t.sourceKey, t.version));
      CutAtNul(s.sourceKey, s.version, t.sourceKey, t.version);
    } else {
      TypeNoNul(s);
      TypeNoNul(t);
      CutAtNul(s.recordType, Pair(s.customer, s.key), t.recordType, Pair(t.customer, t.key));
      CutAtNul(s.customer, s.key, t.customer, t.key);
    }
  }

  /** So a NUL behind a text in a customer's name is enough: the key shares its group with
      that of the customer named before the NUL. */
  lemma NulMovesTheCut(customer: string, middle: string, source: string, version: string)
    requires !IsBlank(customer) && !IsBlank(source) && !IsBlank(version)
    ensures var long := KeyFor(Knowledge(Pair(customer, middle), source, version));
            var short := KeyFor(Knowledge(customer, Pair(middle, source), version));
            && ScopedKeyGroup(long).Some? && ScopedKeyGroup(long) == ScopedKeyGroup(short)
            && IdentityOf(long).customer != IdentityOf(short).customer
            && Loose(IdentityOf(long))
  {
    var long := Knowledge(Pair(customer, middle), source, version);
    var short := Knowledge(customer, Pair(middle, source), version);
    assert long.customer[|customer|] == '\0' && short.sourceKey[|middle|] == '\0';
    NulIsNotBlank(long.customer);
    NulIsNotBlank(short.sourceKey);
    KeyHasIdentity(long);
    KeyHasIdentity(short);
    PairAssociates(customer, middle, Pair(source, version));
    PairAssociates(middle, source, version);
    GroupTextIs(long);
    GroupTextIs(short);
    SharedIff(KeyFor(long));
  }
}
