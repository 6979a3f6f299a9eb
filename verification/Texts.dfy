/** JavaScript text: white space, trimming and substring search. */
module Texts {
  /** White space and line terminators, section 12.2 and 12.3 of ECMA-262; the same
      set serves `String.prototype.trim` and `\s`. */
  predicate IsSpaceCode(code: int) {
    || 9 <= code <= 13 || code == 32 || code == 0xA0 || code == 0x1680 || 0x2000 <= code <= 0x200A
    || code == 0x2028 || code == 0x2029 || code == 0x202F || code == 0x205F || code == 0x3000 || code == 0xFEFF
  }

  predicate IsSpace(c: char) {
    IsSpaceCode(c as int)
  }

  function TrimStart<T>(s: seq<T>, space: T -> bool): (r: seq<T>)
    ensures |r| <= |s|
  {
    if s != [] && space(s[0]) then TrimStart(s[1..], space) else s
  }

  function TrimEnd<T>(s: seq<T>, space: T -> bool): (r: seq<T>)
    ensures |r| <= |s|
  {
    if s != [] && space(s[|s| - 1]) then TrimEnd(s[..|s| - 1], space) else s
  }

  function Trim<T>(s: seq<T>, space: T -> bool): seq<T> {
    TrimEnd(TrimStart(s, space), space)
  }

  predicate Trimmed<T>(s: seq<T>, space: T -> bool) {
    s == [] || (!space(s[0]) && !space(s[|s| - 1]))
  }

  predicate AllSpace<T>(s: seq<T>, space: T -> bool) {
    forall i :: 0 <= i < |s| ==> space(s[i])
  }

  lemma {:induction false} TrimStartDrops<T>(s: seq<T>, space: T -> bool)
    ensures var r := TrimStart(s, space);
            && r == s[|s| - |r|..] && AllSpace(s[..|s| - |r|], space)
            && (r != [] ==> !space(r[0]))
  {
    if s != [] && space(s[0]) {
      TrimStartDrops(s[1..], space);
      var r := TrimStart(s[1..], space);
      assert s[..|s| - |r|] == [s[0]] + s[1..][..|s| - 1 - |r|];
    }
  }

  lemma {:induction false} TrimEndDrops<T>(s: seq<T>, space: T -> bool)
    ensures var r := TrimEnd(s, space);
            && r == s[..|r|] && AllSpace(s[|r|..], space)
            && (r != [] ==> !space(r[|r| - 1]))
  {
    if s != [] && space(s[|s| - 1]) {
      TrimEndDrops(s[..|s| - 1], space);
      var r := TrimEnd(s[..|s| - 1], space);
      assert s[|r|..] == s[..|s| - 1][|r|..] + [s[|s| - 1]];
    }
  }

  lemma TrimIsTrimmed<T>(s: seq<T>, space: T -> bool)
    ensures Trimmed(Trim(s, space), space)
  {
    var t := TrimStart(s, space);
    TrimStartDrops(s, space);
    TrimEndDrops(t, space);
    var r := TrimEnd(t, space);
    if r != [] {
      assert r[0] == t[0];
    }
  }

  /** Trimming cuts white space off both ends and nothing else. */
  lemma TrimSplits<T>(s: seq<T>, space: T -> bool) returns (before: seq<T>, after: seq<T>)
    ensures s == before + Trim(s, space) + after
    ensures AllSpace(before, space) && AllSpace(after, space)
  {
    var t := TrimStart(s, space);
    TrimStartDrops(s, space);
    TrimEndDrops(t, space);
    before, after := s[..|s| - |t|], t[|Trim(s, space)|..];
    SplitAt(s, |s| - |t|);
    SplitAt(t, |Trim(s, space)|);
    Regroup(before, Trim(s, space), after);
  }

  lemma Regroup<T>(a: seq<T>, b: seq<T>, c: seq<T>)
    ensures a + (b + c) == a + b + c
  {
  }

  lemma SplitAt<T>(s: seq<T>, k: nat)
    requires k <= |s|
    ensures s == s[..k] + s[k..]
  {
  }

  lemma TrimKeepsTrimmed<T>(s: seq<T>, space: T -> bool)
    requires Trimmed(s, space)
    ensures Trim(s, space) == s
  {
  }

  predicate IsBlank(s: string) {
    Trim(s, IsSpace) == []
  }

  /** A text is blank exactly when it is all white space. */
  lemma BlankIff(s: string)
    ensures IsBlank(s) <==> AllSpace(s, IsSpace)
  {
    if AllSpace(s, IsSpace) {
      TrimStartDrops(s, IsSpace);
    } else {
      var before, after := TrimSplits(s, IsSpace);
    }
  }

  /** `String.prototype.includes`. */
  predicate Contains<T(==)>(s: seq<T>, part: seq<T>) {
    |part| <= |s| && (s[..|part|] == part || (s != [] && Contains(s[1..], part)))
  }

  /** Substring search finds the part exactly when it occurs at some position. */
  lemma {:induction false} ContainsFinds<T>(s: seq<T>, part: seq<T>) returns (before: seq<T>, after: seq<T>)
    requires Contains(s, part)
    ensures s == before + part + after
  {
    if s[..|part|] == part {
      before, after := [], s[|part|..];
    } else {
      before, after := ContainsFinds(s[1..], part);
      before := [s[0]] + before;
    }
  }

  lemma {:induction false} ContainsAll<T>(before: seq<T>, part: seq<T>, after: seq<T>)
    ensures Contains(before + part + after, part)
  {
    var s := before + part + after;
    if before == [] {
      assert s[..|part|] == part;
    } else {
      ContainsAll(before[1..], part, after);
      assert s[1..] == before[1..] + part + after;
    }
  }

  predicate StandsAt<T(==)>(s: seq<T>, part: seq<T>, i: nat) {
    i + |part| <= |s| && s[i..i + |part|] == part
  }

  /** The part stands somewhere in the text. */
  predicate Occurs<T(==)>(s: seq<T>, part: seq<T>) {
    exists i :: 0 <= i <= |s| && StandsAt(s, part, i)
  }

  lemma Around<T>(s: seq<T>, i: nat, j: nat)
    requires i <= j <= |s|
    ensures s[..i] + s[i..j] + s[j..] == s
  {
  }

  lemma OccursIff<T>(s: seq<T>, part: seq<T>)
    ensures Contains(s, part) <==> Occurs(s, part)
  {
    if Contains(s, part) {
      var before, after := ContainsFinds(s, part);
      assert StandsAt(s, part, |before|);
    }
    if i :| 0 <= i <= |s| && StandsAt(s, part, i) {
      ContainsAll(s[..i], part, s[i + |part|..]);
      Around(s, i, i + |part|);
    }
  }
}
