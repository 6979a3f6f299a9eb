/** Lists gathered element by element, and what survives reordering. */
module Collecting {
  import opened Prelude

  function OneOf<T>(o: Option<T>): seq<T> {
    if o.Some? then [o.value] else []
  }

  /** What `f` yields along the list, in order. */
  function Collect<T, U>(s: seq<T>, f: T -> Option<U>): seq<U> {
    if s == [] then [] else Collect(s[..|s| - 1], f) + OneOf(f(s[|s| - 1]))
  }

  lemma CollectNext<T, U>(s: seq<T>, i: nat, f: T -> Option<U>)
    requires i < |s|
    ensures Collect(s[..i + 1], f) == Collect(s[..i], f) + OneOf(f(s[i]))
  {
    assert s[..i + 1][..i] == s[..i];
  }

  lemma {:induction false} CollectConcat<T, U>(a: seq<T>, b: seq<T>, f: T -> Option<U>)
    ensures Collect(a + b, f) == Collect(a, f) + Collect(b, f)
  {
    if b == [] {
      assert a + b == a;
    } else {
      var init, last := b[..|b| - 1], OneOf(f(b[|b| - 1]));
      CollectConcat(a, init, f);
      assert (a + b)[..|a + b| - 1] == a + init && (a + b)[|a + b| - 1] == b[|b| - 1];
      calc {
        Collect(a + b, f);
        Collect(a + init, f) + last;
        (Collect(a, f) + Collect(init, f)) + last;
        Collect(a, f) + (Collect(init, f) + last);
        Collect(a, f) + Collect(b, f);
      }
    }
  }

  lemma CollectAround<T, U>(s: seq<T>, f: T -> Option<U>, j: nat)
    requires j < |s|
    ensures Collect(s, f) == Collect(s[..j], f) + OneOf(f(s[j])) + Collect(s[j + 1..], f)
  {
    assert s == s[..j + 1] + s[j + 1..];
    CollectConcat(s[..j + 1], s[j + 1..], f);
    CollectNext(s, j, f);
  }

  lemma MiddleOut<T>(a: seq<T>, m: seq<T>, b: seq<T>)
    ensures multiset(a + m + b) == multiset(a + b) + multiset(m)
  {
  }

  /** Taking one element out of the list takes its yield out of the result. */
  lemma CollectWithout<T, U>(s: seq<T>, i: nat, f: T -> Option<U>)
    requires i < |s|
    ensures multiset(Collect(s, f)) == multiset(Collect(s[..i] + s[i + 1..], f)) + multiset(OneOf(f(s[i])))
  {
    CollectAround(s, f, i);
    CollectConcat(s[..i], s[i + 1..], f);
    MiddleOut(Collect(s[..i], f), OneOf(f(s[i])), Collect(s[i + 1..], f));
  }

  lemma MultisetWithout<T>(s: seq<T>, i: nat)
    requires i < |s|
    ensures multiset(s[..i] + s[i + 1..]) == multiset(s) - multiset{s[i]}
  {
    assert s == s[..i] + [s[i]] + s[i + 1..];
  }

  /** Reordering the list reorders what is collected. */
  lemma {:induction false} CollectPermutes<T, U>(a: seq<T>, b: seq<T>, f: T -> Option<U>)
    requires multiset(a) == multiset(b)
    ensures multiset(Collect(a, f)) == multiset(Collect(b, f))
    decreases |a|
  {
    assert |a| == |multiset(a)| && |b| == |multiset(b)|;
    if a != [] {
      var last := |a| - 1;
      assert a[last] in multiset(b);
      var i :| 0 <= i < |b| && b[i] == a[last];
      MultisetWithout(a, last);
      MultisetWithout(b, i);
      assert a[..last] + a[last + 1..] == a[..last];
      CollectPermutes(a[..last], b[..i] + b[i + 1..], f);
      CollectWithout(a, last, f);
      CollectWithout(b, i, f);
    }
  }

  lemma {:induction false} CollectSame<T, U>(s: seq<T>, f: T -> Option<U>, g: T -> Option<U>)
    requires forall x :: x in s ==> f(x) == g(x)
    ensures Collect(s, f) == Collect(s, g)
  {
    if s != [] {
      CollectSame(s[..|s| - 1], f, g);
    }
  }

  lemma {:induction false} CollectFrom<T, U>(s: seq<T>, f: T -> Option<U>, u: U) returns (x: T)
    requires u in Collect(s, f)
    ensures x in s && f(x) == Some(u)
  {
    if u in Collect(s[..|s| - 1], f) {
      x := CollectFrom(s[..|s| - 1], f, u);
    } else {
      x := s[|s| - 1];
    }
  }

  lemma {:induction false} CollectHas<T, U>(s: seq<T>, f: T -> Option<U>, x: T)
    requires x in s && f(x).Some?
    ensures f(x).value in Collect(s, f)
  {
    var last := |s| - 1;
    if x in s[..last] {
      CollectHas(s[..last], f, x);
    } else {
      assert s == s[..last] + [s[last]];
    }
  }

  /** Nothing is collected exactly when no element yields anything. */
  lemma CollectNone<T, U>(s: seq<T>, f: T -> Option<U>)
    ensures Collect(s, f) == [] <==> forall x :: x in s ==> f(x).None?
  {
    forall x | x in s && f(x).Some?
      ensures Collect(s, f) != []
    {
      CollectHas(s, f, x);
    }
    if Collect(s, f) != [] {
      var x := CollectFrom(s, f, Collect(s, f)[0]);
    }
  }

  /** At most one thing is collected per element; as many as elements exactly when each
      yields one. */
  lemma {:induction false} CollectSize<T, U>(s: seq<T>, f: T -> Option<U>)
    ensures |Collect(s, f)| <= |s|
    ensures |Collect(s, f)| == |s| <==> forall x :: x in s ==> f(x).Some?
  {
    if s != [] {
      var init := s[..|s| - 1];
      CollectSize(init, f);
      assert s == init + [s[|s| - 1]];
    }
  }

  // ------------------------------------------------------------------ Distinctness

  /** Every element yields something, and no two the same. */
  ghost predicate Distinct<T, U>(s: seq<T>, f: T -> Option<U>) {
    && (forall i :: 0 <= i < |s| ==> f(s[i]).Some?)
    && forall i, j :: 0 <= i < j < |s| ==> f(s[i]) != f(s[j])
  }

  function Support<T>(s: seq<T>): set<T> {
    set x | x in s
  }

  lemma {:induction false} SupportSize<T>(s: seq<T>)
    ensures |Support(s)| <= |s|
    ensures |Support(s)| == |s| <==> forall i, j :: 0 <= i < j < |s| ==> s[i] != s[j]
  {
    if s != [] {
      var init, last := s[..|s| - 1], s[|s| - 1];
      SupportSize(init);
      assert s == init + [last];
      assert Support(s) == Support(init) + {last};
      if last in init {
        var i :| 0 <= i < |init| && init[i] == last;
        assert s[i] == s[|s| - 1];
      }
      assert (forall i, j :: 0 <= i < j < |s| ==> s[i] != s[j])
             <==> (forall i, j :: 0 <= i < j < |init| ==> init[i] != init[j]) && last !in init;
    }
  }

  /** When everything yields something the collection lists it position by position. */
  lemma {:induction false} CollectAll<T, U>(s: seq<T>, f: T -> Option<U>)
    requires forall i :: 0 <= i < |s| ==> f(s[i]).Some?
    ensures |Collect(s, f)| == |s|
    ensures forall i :: 0 <= i < |s| ==> Some(Collect(s, f)[i]) == f(s[i])
  {
    if s != [] {
      CollectAll(s[..|s| - 1], f);
    }
  }

  /** The number of different things collected reaches the length of the list exactly
      when the list is distinct. */
  lemma DistinctIff<T, U>(s: seq<T>, f: T -> Option<U>)
    ensures |Support(Collect(s, f))| <= |s|
    ensures |Support(Collect(s, f))| == |s| <==> Distinct(s, f)
  {
    var c := Collect(s, f);
    CollectSize(s, f);
    SupportSize(c);
    if forall i :: 0 <= i < |s| ==> f(s[i]).Some? {
      CollectAll(s, f);
      assert forall i, j :: 0 <= i < j < |s| ==> (c[i] != c[j] <==> f(s[i]) != f(s[j]));
    }
  }

  lemma SamePermutation<T>(a: seq<T>, b: seq<T>)
    requires multiset(a) == multiset(b)
    ensures |a| == |b| && Support(a) == Support(b)
  {
    assert |a| == |multiset(a)| && |b| == |multiset(b)|;
    assert forall x :: x in a <==> x in multiset(a);
    assert forall x :: x in b <==> x in multiset(b);
  }

  function Repeat<T>(x: T, n: nat): seq<T> {
    if n == 0 then [] else Repeat(x, n - 1) + [x]
  }

  lemma {:induction false} RepeatConcat<T>(x: T, m: nat, n: nat)
    ensures Repeat(x, m) + Repeat(x, n) == Repeat(x, m + n)
  {
    if n > 0 {
      RepeatConcat(x, m, n - 1);
    }
  }

  lemma {:induction false} RepeatedOnly<T>(x: T, n: nat)
    ensures |Repeat(x, n)| == n && forall y :: y in Repeat(x, n) ==> y == x
  {
    if n > 0 {
      RepeatedOnly(x, n - 1);
    }
  }

  // ---------------------------------------------------------------------- Counting

  /** At how many positions the property holds. */
  ghost function CountWhere<T>(s: seq<T>, p: T -> bool): nat {
    |set k | 0 <= k < |s| && p(s[k])|
  }

  lemma CountWhereNext<T>(s: seq<T>, p: T -> bool)
    requires s != []
    ensures CountWhere(s, p) == CountWhere(s[..|s| - 1], p) + if p(s[|s| - 1]) then 1 else 0
  {
    var last := |s| - 1;
    var before := set k | 0 <= k < last && p(s[..last][k]);
    var whole := set k | 0 <= k < |s| && p(s[k]);
    forall k
      ensures k in whole <==> k in before || (k == last && p(s[last]))
    {
    }
    assert whole == before + if p(s[last]) then {last} else {};
    assert last !in before;
  }

  lemma {:induction false} CollectedIs<T, U>(s: seq<T>, f: T -> Option<U>, p: T -> bool)
    requires forall x :: x in s ==> (f(x).Some? <==> p(x))
    ensures |Collect(s, f)| == CountWhere(s, p)
  {
    if s != [] {
      CollectedIs(s[..|s| - 1], f, p);
      CountWhereNext(s, p);
    }
  }

  lemma {:induction false} MissingIs<T, U>(s: seq<T>, f: T -> Option<U>, p: T -> bool)
    requires forall x :: x in s ==> (f(x).None? <==> p(x))
    ensures |Collect(s, f)| <= |s| && |s| - |Collect(s, f)| == CountWhere(s, p)
  {
    if s != [] {
      MissingIs(s[..|s| - 1], f, p);
      CountWhereNext(s, p);
    }
  }
}
